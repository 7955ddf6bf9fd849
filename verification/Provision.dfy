/**
 One-click provisioning: rows, secrets, Docker objects and an init job under one
 transaction that commits last. Whatever fails on the way, the committed rows are
 as before and no other tenant's Docker objects have changed.
 */
module Provision {
  import opened Prelude
  import opened Naming
  import opened TenantConfig
  import opened Docker
  import opened Envelope
  import opened Database
  import opened Vault
  import opened Provider
  import opened Tenants
  import opened Effects
  import opened Services

  /** Exactly the requested secrets, each readable and delivered under its own name. */
  ghost predicate SecretsStored(kek: Key, db: Db, t: Uuid, secrets: map<string, string>) {
    && (forall n :: (t, n) in db.secrets <==> n in secrets)
    && (forall n :: n in secrets ==> StoredAs(kek, db, t, n, secrets[n]))
  }

  ghost predicate StoredAs(kek: Key, db: Db, t: Uuid, n: string, text: string) {
    (t, n) in db.secrets && TextOf(kek, db, t, n) == Some(text) && db.secrets[(t, n)].target == Some(n)
  }

  /** Rows of other tenants, and all users, are as they were. */
  ghost predicate OthersKept(a: Db, b: Db, t: Uuid) {
    && b.users == a.users
    && (forall u :: u != t ==> SameAt(a.tenants, b.tenants, u) && SameAt(a.deks, b.deks, u))
    && (forall k: (Uuid, string) :: k.0 != t ==> SameAt(a.secrets, b.secrets, k))
    && (forall k: (Uuid, UserId) :: k.0 != t ==> SameAt(a.memberships, b.memberships, k))
  }

  /** What a successful provisioning has committed and started. */
  ghost predicate Provisioned(
    kek: Key, before: Db, after: Db, host: Host, t: Uuid, slug: string, name: string, provider: string,
    secrets: map<string, string>, user: UserId, now: int)
  {
    && OthersKept(before, after, t)
    && after.memberships == before.memberships[(t, user) := TenantAdmin]
    && SecretsStored(kek, after, t, secrets)
    && after.audit == before.audit + [
         AuditEvent(t, Some(user), TenantCreate(slug)), AuditEvent(t, None, ContainerStart)]
    && NetworkName(t) in host.networks
    && ContainerName(t) in host.containers
    && var container := host.containers[ContainerName(t)];
    && NewFor(container, t, container.env)
    && after.tenants == before.tenants[t := TenantRow(
         slug, name, RUNNING, Some(container.id), Some(host.networks[NetworkName(t)]), Some(provider), Some(now), now)]
  }

  /** The server has this key, the container has it here unless a secret takes its place, and the model is selected. */
  ghost predicate Serves(
    key: Option<string>, variable: string, name: string, model: string, secrets: map<string, string>, host: Host,
    t: Uuid)
  {
    && key.Some? && key.value != ""
    && ContainerName(t) in host.containers
    && host.containers[ContainerName(t)].env == map[
         "OPENCLAW_GATEWAY_BIND" := "lan", "OPENCLAW_GATEWAY_PORT" := "18789", "OPENCLAW_CANVAS_PORT" := "18790",
         variable := key.value] + secrets
    && SelectsModel(ConfigOf(host, t), name, model)
  }

  /**
   The configuration onboarding wrote, if any, now selects the model, has no custom
   entry under the provider's name, and opens the gateway to the edge.
   */
  ghost predicate SelectsModel(config: Option<Json>, name: string, model: string) {
    config.Some? ==>
      && At(config.value, ["models", "providers", name]) == None
      && At(config.value, ["agents", "defaults", "model", "primary"]) == Some(Str(model))
      && At(config.value, ["gateway", "bind"]) == Some(Str("lan"))
      && At(config.value, ["gateway", "port"]) == Some(Num(18789))
      && At(config.value, ["gateway", "controlUi", "dangerouslyAllowHostHeaderOriginFallback"]) == Some(Bool(true))
  }

  lemma RewriteSelectsModel(h: Host, t: Uuid, spec: ProviderSpec)
    requires ConfiguredHost(h, t, Some(spec)).Ok? && spec.builtin
    ensures SelectsModel(ConfigOf(ConfiguredHost(h, t, Some(spec)).value, t), spec.providerName, spec.modelId)
  {
    if ConfigOf(h, t).Some? {
      ConfigureSelects(ConfigOf(h, t).value, spec);
      ConfigureOpensGateway(ConfigOf(h, t).value, Some(spec));
    }
  }

  lemma OthersKeptSame(a: Db, t: Uuid)
    ensures OthersKept(a, a, t)
  {
  }

  lemma OthersKeptTwice(a: Db, b: Db, c: Db, t: Uuid)
    requires OthersKept(a, b, t) && OthersKept(b, c, t)
    ensures OthersKept(a, c, t)
  {
    forall u | u != t ensures SameAt(a.tenants, c.tenants, u) && SameAt(a.deks, c.deks, u) {
      assert SameAt(a.tenants, b.tenants, u) && SameAt(a.deks, b.deks, u);
    }
    forall k: (Uuid, string) | k.0 != t ensures SameAt(a.secrets, c.secrets, k) {
      assert SameAt(a.secrets, b.secrets, k);
    }
    forall k: (Uuid, UserId) | k.0 != t ensures SameAt(a.memberships, c.memberships, k) {
      assert SameAt(a.memberships, b.memberships, k);
    }
  }

  lemma RequestedRetrieved(kek: Key, db: Db, t: Uuid, secrets: map<string, string>, d: map<string, string>, n: string)
    requires SecretsStored(kek, db, t, secrets) && Retrieves(kek, db, t, d) && n in secrets
    ensures n in d
  {
    hide TextOf, EnvKey;
    assert StoredAs(kek, db, t, n, secrets[n]);
    OwnNameKey(n);
  }

  lemma RetrievedRequested(kek: Key, db: Db, t: Uuid, secrets: map<string, string>, d: map<string, string>, v: string)
    requires SecretsStored(kek, db, t, secrets) && Retrieves(kek, db, t, d) && v in d
    ensures v in secrets && secrets[v] == d[v]
  {
    hide TextOf, EnvKey;
    var n :| (t, n) in db.secrets && EnvKey(db.secrets[(t, n)].target, n) == v && TextOf(kek, db, t, n) == Some(d[v]);
    assert StoredAs(kek, db, t, n, secrets[n]);
    OwnNameKey(n);
  }

  /** The vault can hand back only the requested dictionary. */
  lemma OnlyDictionary(kek: Key, db: Db, t: Uuid, secrets: map<string, string>, d: map<string, string>)
    requires SecretsStored(kek, db, t, secrets) && Retrieves(kek, db, t, d)
    ensures d == secrets
  {
    hide SecretsStored, Retrieves;
    forall v ensures SameAt(d, secrets, v) {
      if v in secrets {
        RequestedRetrieved(kek, db, t, secrets, d, v);
      }
      if v in d {
        RetrievedRequested(kek, db, t, secrets, d, v);
      }
    }
    MapsEqual(d, secrets);
  }

  lemma OwnNameKey(n: string)
    ensures EnvKey(Some(n), n) == n
  {
  }

  /** Making the data key keeps what is stored: with no key there was nothing stored. */
  lemma EnsureKeepsStored(kek: Key, db: Db, drawn: nat, t: Uuid, secrets: map<string, string>)
    requires SecretsStored(kek, db, t, secrets)
    ensures SecretsStored(kek, DekEnsured(kek, db, drawn, t), t, secrets)
    ensures OthersKept(db, DekEnsured(kek, db, drawn, t), t)
    ensures KeyUsable(kek, db, t) ==> KeyUsable(kek, DekEnsured(kek, db, drawn, t), t)
  {
    assert t !in db.deks ==> secrets == map[];
  }

  lemma StoreKeepsStored(kek: Key, db: Db, drawn: nat, t: Uuid, secrets: map<string, string>, n: string, text: string)
    requires SecretsStored(kek, db, t, secrets)
    requires DekOf(kek, Stored(kek, db, drawn, t, n, Secret(text, EnvSecret, Some(n))), t).Some?
    ensures
      var after := Stored(kek, db, drawn, t, n, Secret(text, EnvSecret, Some(n)));
      && SecretsStored(kek, after, t, secrets[n := text])
      && OthersKept(db, after, t)
      && after == db.(deks := after.deks, secrets := after.secrets)
  {
    hide OthersKept, DekEnsured, SecretsStored;
    EnsureKeepsStored(kek, db, drawn, t, secrets);
    var keyed := DekEnsured(kek, db, drawn, t);
    var after := Stored(kek, db, drawn, t, n, Secret(text, EnvSecret, Some(n)));
    KeyedBefore(kek, db, drawn, t, n, Secret(text, EnvSecret, Some(n)));
    var row := SealedSecret(DekOf(kek, keyed, t).value, DrawnByDek(db, drawn, t), Secret(text, EnvSecret, Some(n)));
    RowKeepsStored(kek, keyed, t, secrets, n, row, text);
    OthersKeptTwice(db, keyed, after, t);
  }

  lemma KeyedBefore(kek: Key, db: Db, drawn: nat, t: Uuid, n: string, s: Secret)
    ensures DekEnsured(kek, db, drawn, t) == db.(deks := DekEnsured(kek, db, drawn, t).deks)
    ensures DekOf(kek, Stored(kek, db, drawn, t, n, s), t).Some? ==> DekOf(kek, DekEnsured(kek, db, drawn, t), t).Some?
  {
  }

  /** One more sealed row is one more stored secret. */
  lemma RowKeepsStored(
    kek: Key, db: Db, t: Uuid, secrets: map<string, string>, n: string, row: SecretRow, text: string)
    requires SecretsStored(kek, db, t, secrets)
    requires DekOf(kek, db, t).Some? && OpenText(DekOf(kek, db, t).value, row.nonce, row.ciphertext) == Some(text)
    requires row.target == Some(n)
    ensures
      var after := db.(secrets := db.secrets[(t, n) := row]);
      SecretsStored(kek, after, t, secrets[n := text]) && OthersKept(db, after, t)
  {
    var after := db.(secrets := db.secrets[(t, n) := row]);
    assert DekOf(kek, after, t) == DekOf(kek, db, t);
    hide DekOf, OpenText;
    forall m | m in secrets && m != n ensures StoredAs(kek, after, t, m, secrets[m]) {
      assert StoredAs(kek, db, t, m, secrets[m]);
    }
  }

  lemma StoredIsReadable(kek: Key, db: Db, t: Uuid, secrets: map<string, string>)
    requires SecretsStored(kek, db, t, secrets) && KeyUsable(kek, db, t)
    ensures TenantReadable(kek, db, t) && forall drawn :: Fetchable(kek, db, drawn, t)
  {
    forall drawn: nat ensures TenantReadable(kek, db, t) ==> Fetchable(kek, db, drawn, t) {
      if TenantReadable(kek, db, t) {
        ReadableFetches(kek, db, drawn, t);
      }
    }
    forall n | (t, n) in db.secrets ensures TextOf(kek, db, t, n).Some? {
      assert StoredAs(kek, db, t, n, secrets[n]);
    }
  }

  lemma OthersKeptUpTo(a: Db, b: Db, c: Db, t: Uuid)
    requires OthersKept(a, b, t) && t in b.tenants && t in c.tenants
    requires c == b.(tenants := c.tenants, audit := c.audit) && c.tenants == b.tenants[t := c.tenants[t]]
    ensures OthersKept(a, c, t)
  {
    forall u | u != t ensures SameAt(a.tenants, c.tenants, u) && SameAt(a.deks, c.deks, u) {
      assert SameAt(a.tenants, b.tenants, u) && SameAt(a.deks, b.deks, u);
    }
  }

  lemma CreatedKeepsOthers(before: Db, created: Db, t: Uuid, row: TenantRow, user: UserId)
    requires created == before.(
      tenants := before.tenants[t := row],
      memberships := before.memberships[(t, user) := TenantAdmin],
      audit := created.audit)
    ensures OthersKept(before, created, t)
  {
  }

  /** The four stages put together. */
  lemma Assembled(
    kek: Key, before: Db, created: Db, stored: Db, onboarded: Db, after: Db, host: Host, t: Uuid,
    row: TenantRow, slug: string, name: string, provider: string, secrets: map<string, string>, user: UserId, now: int)
    requires t !in before.tenants
    requires created == before.(
      tenants := before.tenants[t := row],
      memberships := before.memberships[(t, user) := TenantAdmin],
      audit := before.audit + [AuditEvent(t, Some(user), TenantCreate(slug))])
    requires stored == created.(deks := stored.deks, secrets := stored.secrets) && OthersKept(created, stored, t)
    requires onboarded == stored.(deks := onboarded.deks) && OthersKept(stored, onboarded, t)
    requires OthersKept(onboarded, after, t) && SecretsStored(kek, after, t, secrets)
    requires ContainerName(t) in host.containers
    requires
      var container := host.containers[ContainerName(t)];
      && NewFor(container, t, container.env)
      && after == onboarded.(
           deks := after.deks,
           tenants := onboarded.tenants[t :=
             row.(status := RUNNING, containerId := Some(container.id), lastActivity := Some(now))],
           audit := onboarded.audit + [AuditEvent(t, None, ContainerStart)])
    requires NetworkName(t) in host.networks
    requires row == TenantRow(
      slug, name, STOPPED, None, Some(host.networks[NetworkName(t)]), Some(provider), None, now)
    ensures Provisioned(kek, before, after, host, t, slug, name, provider, secrets, user, now)
  {
    hide SecretsStored, OthersKept, NewFor;
    CreatedKeepsOthers(before, created, t, row, user);
    OthersKeptTwice(before, created, stored, t);
    OthersKeptTwice(before, stored, onboarded, t);
    OthersKeptTwice(before, onboarded, after, t);
  }

  lemma NewForEnv(c: Container, t: Uuid, env: map<string, string>)
    requires NewFor(c, t, env)
    ensures c.env == env
  {
  }

  /** Which variable, server key and model each provider stands for. */
  lemma ProviderMeans(
    cfg: Settings, provider: string, secrets: map<string, string>, host: Host, t: Uuid)
    ensures GetProvider(provider).Ok? <==> provider in {"zai", "moonshot", "minimax"}
    ensures GetProvider(provider).Err? ==> GetProvider(provider) == Err(UnknownProvider)
    ensures GetProvider(provider).Ok? ==>
      var spec := GetProvider(provider).value;
      && spec.builtin
      && var key :=
        if provider == "zai" then cfg.zaiKey else if provider == "moonshot" then cfg.moonshotKey else cfg.minimaxKey;
      && ApiKey(cfg, spec.envVar) == (if key == Some("") then None else key)
      && (ContainerName(t) in host.containers && ApiKey(cfg, spec.envVar).Some?
          && host.containers[ContainerName(t)].env == ContainerEnv(cfg, Some(spec.envVar), secrets)
          && SelectsModel(ConfigOf(host, t), spec.providerName, spec.modelId) ==>
            && (provider == "zai" ==>
                  Serves(cfg.zaiKey, "ZAI_API_KEY", "zai-coding", "zai-coding/glm-5", secrets, host, t))
            && (provider == "moonshot" ==>
                  Serves(cfg.moonshotKey, "MOONSHOT_API_KEY", "kimi-coding", "kimi-coding/k2p5", secrets, host, t))
            && (provider == "minimax" ==>
                  Serves(
                    cfg.minimaxKey, "MINIMAX_API_KEY", "minimax-coding", "minimax-coding/MiniMax-M2.5", secrets,
                    host, t)))
  {
    hide SelectsModel, ConfigOf, ContainerName;
  }

  lemma StoredUnderUpdates(kek: Key, a: Db, b: Db, t: Uuid, secrets: map<string, string>)
    requires SecretsStored(kek, a, t, secrets) && b.deks == a.deks && b.secrets == a.secrets
    ensures SecretsStored(kek, b, t, secrets)
  {
    forall n | n in secrets ensures StoredAs(kek, b, t, n, secrets[n]) {
      assert StoredAs(kek, a, t, n, secrets[n]);
    }
  }

  lemma OnboardedHasDir(h: Host, t: Uuid, spec: ProviderSpec)
    requires TenantDir(t) in h.dirs && ConfiguredHost(h, t, Some(spec)).Ok?
    ensures
      var done := ConfiguredHost(h, t, Some(spec)).value;
      TenantDir(t) in done.dirs && done.containers == h.containers && done.networks == h.networks
  {
  }

  /** Starting a tenant that has a network and no container. */
  lemma FirstStart(
    kek: Key, cfg: Settings, w: World, t: Uuid, now: int, secrets: map<string, string>, provider: string)
    requires t in w.db.tenants && w.db.tenants[t].provider == Some(provider) && provider != ""
    requires GetProvider(provider).Ok?
    requires ContainerName(t) !in w.host.containers && NetworkName(t) in w.host.networks
    ensures
      var o := TenantStarted(kek, cfg, w, t, now, secrets);
      var keyed := DekEnsured(kek, w.db, w.drawn, t);
      && o.result.Ok?
      && o.world.host.networks == w.host.networks
      && (TenantDir(t) in w.host.dirs ==> o.world.host.dirs == w.host.dirs)
      && ContainerName(t) in o.world.host.containers
      && var container := o.world.host.containers[ContainerName(t)];
      && NewFor(container, t, ContainerEnv(cfg, Some(GetProvider(provider).value.envVar), secrets))
      && o.world.db == keyed.(
           tenants := w.db.tenants[t := w.db.tenants[t].(
             status := RUNNING, containerId := Some(container.id), lastActivity := Some(now))],
           audit := w.db.audit + [AuditEvent(t, None, ContainerStart)])
  {
    hide GetProvider, ContainerEnv;
  }

  /** With what the vault hands back, the first start keeps what is stored and delivers exactly that. */
  lemma FirstStartDelivers(
    kek: Key, cfg: Settings, w: World, t: Uuid, now: int, secrets: map<string, string>, d: map<string, string>,
    provider: string)
    requires SecretsStored(kek, w.db, t, secrets) && Retrieves(kek, DekEnsured(kek, w.db, w.drawn, t), t, d)
    requires t in w.db.tenants && w.db.tenants[t].provider == Some(provider) && provider != ""
    requires GetProvider(provider).Ok?
    requires ContainerName(t) !in w.host.containers && NetworkName(t) in w.host.networks
    ensures d == secrets
    ensures
      var after := TenantStarted(kek, cfg, w, t, now, d).world.db;
      SecretsStored(kek, after, t, secrets) && OthersKept(w.db, after, t)
  {
    hide SecretsStored, OthersKept, Retrieves, ContainerEnv, GetProvider, DekOf, TenantStarted;
    var keyed := DekEnsured(kek, w.db, w.drawn, t);
    var after := TenantStarted(kek, cfg, w, t, now, d).world.db;
    FirstStart(kek, cfg, w, t, now, d, provider);
    EnsureKeepsStored(kek, w.db, w.drawn, t, secrets);
    OnlyDictionary(kek, keyed, t, secrets, d);
    OthersKeptUpTo(w.db, keyed, after, t);
    StoredUnderUpdates(kek, keyed, after, t, secrets);
  }

  /** An identifier no tenant has: nothing is stored under it, and nobody is its member. */
  lemma NothingOfTenant(kek: Key, db: Db, t: Uuid, user: UserId)
    requires Sound(db) && t !in db.tenants
    ensures SecretsStored(kek, db, t, map[])
    ensures t !in db.deks && (t, user) !in db.memberships
  {
    forall n ensures (t, n) !in db.secrets {
      assert (t, n) in db.secrets ==> (t, n).0 in db.tenants;
    }
    assert (t, user) in db.memberships ==> (t, user).0 in db.tenants;
  }

  lemma FetchedReads(kek: Key, db: Db, drawn: nat, t: Uuid, d: map<string, string>)
    requires Fetched(kek, db, drawn, t, d)
    ensures Retrieves(kek, DekEnsured(kek, db, drawn, t), t, d)
  {
  }

  lemma KeyToCome(kek: Key, db: Db, t: Uuid)
    requires t in db.tenants && t !in db.deks
    ensures KeyUsable(kek, db, t)
  {
  }

  lemma OnlyUnknown(provider: string)
    ensures GetProvider(provider).Err? ==> GetProvider(provider) == Err(UnknownProvider)
    ensures GetProvider(provider).Ok? ==> provider != ""
  {
  }

  class ProvisionRouter {
    const svc: TenantService

    constructor (svc: TenantService)
      ensures this.svc == svc
    {
      this.svc := svc;
    }

    /** The requested secrets, one store after another. */
    method StoreAll(session: Session, t: Uuid, secrets: map<string, string>) returns (r: Result<()>)
      requires SecretsStored(svc.vault.vault.kek, session.db, t, map[])
      modifies session`db, svc.vault.vault
      ensures r.Ok? ==> SecretsStored(svc.vault.vault.kek, session.db, t, secrets)
      ensures r.Ok? ==> OthersKept(old(session.db), session.db, t)
      ensures r.Ok? ==> session.db == old(session.db).(deks := session.db.deks, secrets := session.db.secrets)
      ensures t in old(session.db.tenants) && KeyUsable(svc.vault.vault.kek, old(session.db), t) ==>
        && (r.Ok? ==> KeyUsable(svc.vault.vault.kek, session.db, t))
        && (session.reliable ==> r.Ok?)
      ensures r.Err? ==> r.error in {IntegrityError, InvalidTag, DatabaseError}
    {
      hide SecretsStored, OthersKept, Stored, DekOf;
      OthersKeptSame(session.db, t);
      var names := Enumerate(secrets.Keys);
      ghost var done: map<string, string> := map[];
      for i := 0 to |names|
        invariant done == map n | n in set k | 0 <= k < i :: names[k] :: secrets[n]
        invariant SecretsStored(svc.vault.vault.kek, session.db, t, done)
        invariant OthersKept(old(session.db), session.db, t)
        invariant session.db == old(session.db).(deks := session.db.deks, secrets := session.db.secrets)
        invariant KeyUsable(svc.vault.vault.kek, old(session.db), t) ==> KeyUsable(svc.vault.vault.kek, session.db, t)
      {
        var n := names[i];
        assert n in names;
        ghost var before, drawn := session.db, svc.vault.vault.drawn;
        r := svc.vault.StoreSecret(session, t, n, Secret(secrets[n], EnvSecret, Some(n)));
        if r.Err? {
          return r;
        }
        StoreKeepsStored(svc.vault.vault.kek, before, drawn, t, done, n, secrets[n]);
        OthersKeptTwice(old(session.db), before, session.db, t);
        done := done[n := secrets[n]];
      }
      assert forall n :: n in secrets ==> n in names;
      assert done == secrets;
      return Ok(());
    }

    /** The new row, with its provider choice written right after. */
    method CreateRow(
      session: Session, t: Uuid, slug: string, name: string, provider: string, user: UserId, now: int)
      returns (r: Result<()>)
      modifies session`db, svc.orch
      ensures old(SlugInUse(session.db, slug)) ==> r.Err? && svc.orch.View() == old(svc.orch.View())
      ensures OnlyTouches(old(svc.orch.View()), svc.orch.View(), t)
      ensures svc.orch.containers == old(svc.orch.containers)
      ensures r.Ok? ==>
        && NetworkName(t) in svc.orch.networks
        && session.db == old(session.db).(
             tenants := old(session.db.tenants)[t :=
               TenantRow(
                 slug, name, STOPPED, None, Some(svc.orch.networks[NetworkName(t)]), Some(provider), None, now)],
             memberships := old(session.db.memberships)[(t, user) := TenantAdmin],
             audit := old(session.db.audit) + [AuditEvent(t, Some(user), TenantCreate(slug))])
      ensures svc.Reliable(session) ==>
        if t !in old(session.db.tenants) && !old(SlugInUse(session.db, slug))
           && user in old(session.db.users.Values) && (t, user) !in old(session.db.memberships)
        then r.Ok? else r == Err(IntegrityError)
      ensures r.Err? ==> r.error == IntegrityError || r.error in FAULTS
    {
      hide OnlyTouches, DirsCreated, SlugInUse;
      r := svc.CreateTenant(session, t, slug, name, Some(user), now);
      if r.Err? {
        return r;
      }
      ghost var row := session.db.tenants[t];
      r := session.UpdateTenant(t, (row: TenantRow) => row.(provider := Some(provider)));
      if r.Ok? {
        assert session.db.tenants == old(session.db.tenants)[t := row.(provider := Some(provider))];
      }
    }

    /** Decrypt, run the init job, rewrite its configuration. */
    method Onboard(session: Session, t: Uuid, spec: ProviderSpec, ghost secrets: map<string, string>)
      returns (r: Result<()>)
      requires SecretsStored(svc.vault.vault.kek, session.db, t, secrets)
      modifies session`db, svc.orch, svc.vault.vault
      ensures OnlyTouches(old(svc.orch.View()), svc.orch.View(), t)
      ensures SameAt(old(svc.orch.containers), svc.orch.containers, ContainerName(t))
      ensures r.Ok? ==> svc.orch.networks == old(svc.orch.networks)
      ensures r.Ok? ==> SecretsStored(svc.vault.vault.kek, session.db, t, secrets)
      ensures r.Ok? ==> OthersKept(old(session.db), session.db, t)
      ensures r.Ok? ==> session.db == old(session.db).(deks := session.db.deks)
      ensures r.Ok? && ApiKey(svc.cfg, spec.envVar).Some? ==> svc.orch.jobs == old(svc.orch.jobs) + [
        map[spec.envVar := ApiKey(svc.cfg, spec.envVar).value]["OPENCLAW_DEFAULT_MODEL" := spec.modelId] + secrets]
      ensures r.Ok? ==> TenantDir(t) in svc.orch.dirs
      ensures r.Ok? && spec.builtin ==> SelectsModel(ConfigOf(svc.orch.View(), t), spec.providerName, spec.modelId)
      ensures KeyUsable(svc.vault.vault.kek, old(session.db), t) ==>
        && (r.Ok? ==> KeyUsable(svc.vault.vault.kek, session.db, t))
        && (svc.Reliable(session) ==> r.Ok? || r.error in {OnboardingFailed, MalformedConfig})
      ensures r.Err? ==> r.error in FAULTS + {IntegrityError, InvalidTag, OnboardingFailed, MalformedConfig}
    {
      hide SecretsStored, OthersKept, OnlyTouches, ConfigOf, ApiKey, DekOf, Retrieves, SelectsModel, ConfiguredHost;
      TouchesNothing(svc.orch.View(), t);
      ghost var before, drawn := session.db, svc.vault.vault.drawn;
      if KeyUsable(svc.vault.vault.kek, before, t) {
        StoredIsReadable(svc.vault.vault.kek, before, t, secrets);
      }
      var decrypted := svc.vault.GetDecryptedSecrets(session, t);
      if decrypted.Err? {
        return Err(decrypted.error);
      }
      EnsureKeepsStored(svc.vault.vault.kek, before, drawn, t, secrets);
      OnlyDictionary(svc.vault.vault.kek, session.db, t, secrets, decrypted.value) by {
        FetchedReads(svc.vault.vault.kek, before, drawn, t, decrypted.value);
      }
      var key := ApiKey(svc.cfg, spec.envVar);
      var env := if key.Some? then map[spec.envVar := key.value] else map[];
      env := env["OPENCLAW_DEFAULT_MODEL" := spec.modelId] + decrypted.value;
      var job, _ := svc.orch.RunInitJob(t, env);
      if job.Err? {
        return Err(job.error);
      }
      ghost var onboarded := svc.orch.View();
      r := svc.orch.ConfigureTenant(t, Some(spec));
      TouchesTwice(old(svc.orch.View()), onboarded, svc.orch.View(), t);
      if r.Ok? {
        if spec.builtin {
          RewriteSelectsModel(onboarded, t, spec);
        }
        OnboardedHasDir(onboarded, t, spec);
      }
    }

    /** Start the container and commit everything. */
    method Launch(session: Session, t: Uuid, now: int, ghost secrets: map<string, string>, provider: string)
      returns (r: Result<()>)
      requires SecretsStored(svc.vault.vault.kek, session.db, t, secrets)
      requires t in session.db.tenants && session.db.tenants[t].provider == Some(provider) && GetProvider(provider).Ok?
      requires provider != ""
      requires ContainerName(t) !in svc.orch.containers
      requires NetworkName(t) in svc.orch.networks
      modifies session, svc.orch, svc.vault.vault
      ensures OnlyTouches(old(svc.orch.View()), svc.orch.View(), t)
      ensures r.Err? ==> session.committed == old(session.committed) && r.error in FAULTS + {IntegrityError, InvalidTag}
      ensures r.Ok? ==>
        && SecretsStored(svc.vault.vault.kek, session.committed, t, secrets)
        && OthersKept(old(session.db), session.committed, t)
        && svc.orch.networks == old(svc.orch.networks)
        && (TenantDir(t) in old(svc.orch.dirs) ==> svc.orch.dirs == old(svc.orch.dirs))
        && ContainerName(t) in svc.orch.containers
        && var container := svc.orch.containers[ContainerName(t)];
        && NewFor(container, t, ContainerEnv(svc.cfg, Some(GetProvider(provider).value.envVar), secrets))
        && session.committed == old(session.db).(
             deks := session.committed.deks,
             tenants := old(session.db.tenants)[t := old(session.db.tenants[t]).(
               status := RUNNING, containerId := Some(container.id), lastActivity := Some(now))],
             audit := old(session.db.audit) + [AuditEvent(t, None, ContainerStart)])
      ensures svc.Reliable(session) && KeyUsable(svc.vault.vault.kek, old(session.db), t) ==> r.Ok?
    {
      hide SecretsStored, OthersKept, Retrieves, ContainerEnv, GetProvider, DekOf, TenantStarted, OnlyTouches;
      hide KeyUsable;
      ghost var w := svc.Sees(session);
      TouchesNothing(svc.orch.View(), t);
      if KeyUsable(svc.vault.vault.kek, w.db, t) {
        StoredIsReadable(svc.vault.vault.kek, w.db, t, secrets);
      }
      var started;
      ghost var d;
      started, d := svc.StartTenant(session, t, now);
      FirstStart(svc.vault.vault.kek, svc.cfg, w, t, now, d, provider);
      if started.Err? {
        return Err(started.error);
      }
      FirstStartDelivers(svc.vault.vault.kek, svc.cfg, w, t, now, secrets, d, provider);
      r := session.Commit();
    }

    /** Steps 1 to 5 of the endpoint, once the request has been found in order. */
    method BuildTenant(
      session: Session, t: Uuid, slug: string, name: string, provider: string, secrets: map<string, string>,
      user: UserId, now: int)
      returns (r: Result<()>)
      requires session.db == session.committed && Sound(session.committed)
      requires t !in session.committed.tenants && ContainerName(t) !in svc.orch.containers
      requires GetProvider(provider).Ok? && ApiKey(svc.cfg, GetProvider(provider).value.envVar).Some?
      requires !SlugInUse(session.committed, slug)
      modifies session, svc.orch, svc.vault.vault
      ensures r.Err? ==> session.committed == old(session.committed)
      ensures r.Err? ==> r.error in FAULTS + {IntegrityError, InvalidTag, OnboardingFailed, MalformedConfig}
      ensures r.Ok? ==> Provisioned(
        svc.vault.vault.kek, old(session.committed), session.committed, svc.orch.View(), t, slug, name, provider,
        secrets, user, now)
      ensures r.Ok? && provider == "zai" ==>
        Serves(svc.cfg.zaiKey, "ZAI_API_KEY", "zai-coding", "zai-coding/glm-5", secrets, svc.orch.View(), t)
      ensures r.Ok? && provider == "moonshot" ==>
        Serves(svc.cfg.moonshotKey, "MOONSHOT_API_KEY", "kimi-coding", "kimi-coding/k2p5", secrets, svc.orch.View(), t)
      ensures r.Ok? && provider == "minimax" ==>
        Serves(
          svc.cfg.minimaxKey, "MINIMAX_API_KEY", "minimax-coding", "minimax-coding/MiniMax-M2.5", secrets,
          svc.orch.View(), t)
      ensures OnlyTouches(old(svc.orch.View()), svc.orch.View(), t)
      ensures svc.Reliable(session) ==>
        if user in old(session.committed.users.Values) then r.Ok? || r.error in {OnboardingFailed, MalformedConfig}
        else r == Err(IntegrityError)
    {
      hide SecretsStored, OthersKept, GetProvider, ApiKey, Provisioned, OnlyTouches, DekOf, SelectsModel;
      hide Serves, NewFor, SlugInUse, Sound, KeyUsable, Stored, DekEnsured, StoredAs;
      NothingOfTenant(svc.vault.vault.kek, session.db, t, user);
      OnlyUnknown(provider);
      r := CreateRow(session, t, slug, name, provider, user, now);
      if r.Err? {
        return r;
      }
      ghost var created, hostCreated := session.db, svc.orch.View();
      KeyToCome(svc.vault.vault.kek, created, t);
      StoredUnderUpdates(svc.vault.vault.kek, old(session.db), created, t, map[]);
      r := StoreAll(session, t, secrets);
      if r.Err? {
        return r;
      }
      ghost var stored := session.db;
      r := Onboard(session, t, GetProvider(provider).value, secrets);
      TouchesTwice(old(svc.orch.View()), hostCreated, svc.orch.View(), t);
      if r.Err? {
        return r;
      }
      ghost var onboarded, hostOnboarded := session.db, svc.orch.View();
      r := Launch(session, t, now, secrets, provider);
      TouchesTwice(old(svc.orch.View()), hostOnboarded, svc.orch.View(), t);
      if r.Ok? {
        NewForEnv(
          svc.orch.containers[ContainerName(t)], t,
          ContainerEnv(svc.cfg, Some(GetProvider(provider).value.envVar), secrets));
        Assembled(
          svc.vault.vault.kek, old(session.db), created, stored, onboarded, session.committed, svc.orch.View(),
          t, created.tenants[t], slug, name, provider, secrets, user, now);
        ProviderMeans(svc.cfg, provider, secrets, svc.orch.View(), t);
      }
    }

    /**
     The endpoint. `t` is the identifier drawn for the new tenant, under which
     nothing exists yet.
     */
    method ProvisionTenant(
      session: Session, t: Uuid, slug: string, name: string, provider: string, secrets: map<string, string>,
      user: UserId, now: int)
      returns (r: Result<()>)
      requires session.db == session.committed && Sound(session.committed)
      requires t !in session.committed.tenants && ContainerName(t) !in svc.orch.containers
      modifies session, svc.orch, svc.vault.vault
      ensures r.Err? ==> session.committed == old(session.committed)
      ensures r.Ok? ==> Provisioned(
        svc.vault.vault.kek, old(session.committed), session.committed, svc.orch.View(), t, slug, name, provider,
        secrets, user, now)
      ensures r.Ok? && provider == "zai" ==>
        Serves(svc.cfg.zaiKey, "ZAI_API_KEY", "zai-coding", "zai-coding/glm-5", secrets, svc.orch.View(), t)
      ensures r.Ok? && provider == "moonshot" ==>
        Serves(svc.cfg.moonshotKey, "MOONSHOT_API_KEY", "kimi-coding", "kimi-coding/k2p5", secrets, svc.orch.View(), t)
      ensures r.Ok? && provider == "minimax" ==>
        Serves(
          svc.cfg.minimaxKey, "MINIMAX_API_KEY", "minimax-coding", "minimax-coding/MiniMax-M2.5", secrets,
          svc.orch.View(), t)
      ensures OnlyTouches(old(svc.orch.View()), svc.orch.View(), t)
      ensures old(SlugInUse(session.committed, slug)) ==> r.Err? && svc.orch.View() == old(svc.orch.View())
      ensures r == Err(UnknownProvider) <==> provider !in {"zai", "moonshot", "minimax"}
      ensures r == Err(ProviderUnconfigured) <==>
        || (provider == "zai" && svc.cfg.zaiKey in {None, Some("")})
        || (provider == "moonshot" && svc.cfg.moonshotKey in {None, Some("")})
        || (provider == "minimax" && svc.cfg.minimaxKey in {None, Some("")})
      ensures r == Err(SlugTaken) ==> old(SlugInUse(session.committed, slug))
      ensures svc.Reliable(session) && r.Err? && r.error !in {UnknownProvider, ProviderUnconfigured} ==>
        if old(SlugInUse(session.committed, slug)) then r == Err(SlugTaken)
        else if user in old(session.committed.users.Values) then r.error in {OnboardingFailed, MalformedConfig}
        else r == Err(IntegrityError)
    {
      hide GetProvider, ApiKey, Provisioned, OnlyTouches, SlugInUse, Sound, Serves;
      OnlyUnknown(provider);
      ProviderMeans(svc.cfg, provider, secrets, svc.orch.View(), t);
      TouchesNothing(svc.orch.View(), t);
      var spec := GetProvider(provider);
      if spec.Err? {
        return Err(UnknownProvider);
      }
      var key := ApiKey(svc.cfg, spec.value.envVar);
      if key.None? {
        return Err(ProviderUnconfigured);
      }
      var ok := session.Await();
      if !ok {
        return Err(DatabaseError);
      }
      if SlugInUse(session.db, slug) {
        return Err(SlugTaken);
      }
      r := BuildTenant(session, t, slug, name, provider, secrets, user, now);
    }
  }
}
