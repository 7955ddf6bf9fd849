/**
 From a stored secret to a container's environment, over whole runs of the
 system: the vault inside the running system is still a plain map, and a stop
 followed by a start delivers exactly what that map holds.
 */
module Delivery {
  import opened Prelude
  import opened Naming
  import opened Docker
  import opened Envelope
  import opened Database
  import opened Vault
  import opened Provider
  import opened Tenants
  import opened Hibernation
  import opened Runs
  import opened Effects
  import V = VaultRefinement

  function VaultState(w: World): V.State {
    V.State(w.db, w.drawn)
  }

  ghost predicate VaultKeyed(d: Deployment, w: World) {
    V.Keyed(d.kek, VaultState(w))
  }

  ghost function Items(d: Deployment, w: World): V.Plain {
    V.Abstraction(d.kek, VaultState(w))
  }

  /** What a request means to the plain map, if anything. */
  function PlainOp(op: Op): Option<V.Op> {
    match op
    case Delete(t, _) => Some(V.DropTenant(t))
    case SetSecret(t, name, s) => Some(V.Put(t, name, s))
    case DropSecret(t, name) => Some(V.Remove(t, name))
    case _ => None
  }

  /** Requests on the plain map: creations that succeed add a tenant, the rest is read off the request. */
  ghost function PlainAfter(d: Deployment, w: World, p: V.Plain, op: Op): V.Plain {
    if op.Create? then
      if Attempt(d, w, op).result.Ok? then p.(tenants := p.tenants + {op.t}) else p
    else if PlainOp(op).Some? then V.PlainStep(p, PlainOp(op).value)
    else p
  }

  ghost function PlainRun(d: Deployment, w: World, p: V.Plain, events: seq<Event>): V.Plain
    decreases |events|
  {
    if events == [] then p
    else
      var p' := if events[0].Do? then PlainAfter(d, w, p, events[0].op) else p;
      PlainRun(d, Happen(d, w, events[0]), p', events[1..])
  }

  /** The vault depends on three columns of the world alone. */
  lemma VaultFrame(kek: Key, a: V.State, b: V.State)
    requires V.Keyed(kek, a) && a.drawn <= b.drawn
    requires b.db.deks == a.db.deks && b.db.secrets == a.db.secrets
    requires a.db.tenants.Keys <= b.db.tenants.Keys
    ensures V.Keyed(kek, b)
    ensures V.Abstraction(kek, b).items == V.Abstraction(kek, a).items
  {
    V.DeksHaveTenants(kek, a);
    V.DeksSurvive(kek, a, b);
    V.OwnersHaveDeks(kek, a);
    V.SealsSurvive(kek, a, b);
    V.ContentsArePlaintexts(kek, a);
    V.ContentsArePlaintexts(kek, b);
  }

  lemma StartKeepsVault(d: Deployment, w: World, t: Uuid, now: int, secrets: map<string, string>)
    requires VaultKeyed(d, w)
    ensures
      var o := TenantStarted(d.kek, d.cfg, w, t, now, secrets);
      var after := if o.result.Ok? then o.world else o.world.(db := w.db);
      VaultKeyed(d, after) && Items(d, after) == Items(d, w)
  {
    hide ContainerEnv, ProviderVar, Started, V.Keyed, V.Abstraction, DekOf;
    var o := TenantStarted(d.kek, d.cfg, w, t, now, secrets);
    var after := if o.result.Ok? then o.world else o.world.(db := w.db);
    if o.result.Ok? {
      V.StepSimulates(d.kek, VaultState(w), V.Fetch(t));
      var fetched := V.Step(d.kek, VaultState(w), V.Fetch(t));
      VaultFrame(d.kek, fetched, VaultState(after));
      assert after.db.tenants.Keys == w.db.tenants.Keys;
      KeysAreTenants(d.kek, fetched, VaultState(after));
    } else {
      VaultFrame(d.kek, VaultState(w), VaultState(after));
      KeysAreTenants(d.kek, VaultState(w), VaultState(after));
    }
  }

  lemma KeysAreTenants(kek: Key, a: V.State, b: V.State)
    requires a.db.tenants.Keys == b.db.tenants.Keys
    requires V.Abstraction(kek, a).items == V.Abstraction(kek, b).items
    ensures V.Abstraction(kek, a) == V.Abstraction(kek, b)
  {
  }

  lemma WakeKeepsVault(d: Deployment, w: World, t: Uuid, now: int, secrets: map<string, string>)
    requires VaultKeyed(d, w)
    ensures
      var o := TenantWoken(d.kek, d.cfg, w, t, now, secrets);
      var after := if o.result.Ok? then o.world else o.world.(db := w.db);
      VaultKeyed(d, after) && Items(d, after) == Items(d, w)
  {
    hide TenantStarted, StateOf, Unpaused, V.Keyed, V.Abstraction, DekOf;
    var o := TenantWoken(d.kek, d.cfg, w, t, now, secrets);
    var after := if o.result.Ok? then o.world else o.world.(db := w.db);
    match StateOf(w.host, t) {
      case StateRunning | StatePaused =>
        assert after.db.tenants.Keys == w.db.tenants.Keys;
        VaultFrame(d.kek, VaultState(w), VaultState(after));
        KeysAreTenants(d.kek, VaultState(w), VaultState(after));
      case _ => StartKeepsVault(d, w, t, now, secrets);
    }
  }

  lemma SecretSetSimulates(d: Deployment, w: World, t: Uuid, name: string, s: Secret)
    requires VaultKeyed(d, w)
    ensures
      var o := SecretSet(d.kek, w, t, name, s);
      var after := if o.result.Ok? then o.world else o.world.(db := w.db);
      VaultKeyed(d, after) && Items(d, after) == V.PlainStep(Items(d, w), V.Put(t, name, s))
  {
    hide V.Keyed, V.Abstraction, Stored;
    V.StepSimulates(d.kek, VaultState(w), V.Put(t, name, s));
    if t in w.db.tenants {
      FetchedDekOpens(d.kek, VaultState(w), t);
      assert VaultState(SecretSet(d.kek, w, t, name, s).world) == V.Step(d.kek, VaultState(w), V.Put(t, name, s));
    }
  }

  lemma FetchedDekOpens(kek: Key, st: V.State, t: Uuid)
    requires V.Keyed(kek, st) && t in st.db.tenants
    ensures DekOf(kek, DekEnsured(kek, st.db, st.drawn, t), t).Some?
  {
    V.FetchStep(kek, st, t);
    assert V.DekDrawn(kek, V.Step(kek, st, V.Fetch(t)), t);
  }

  lemma DeleteSimulates(d: Deployment, w: World, t: Uuid, actor: Option<UserId>)
    requires VaultKeyed(d, w)
    ensures
      var after := TenantDeleted(w, t, actor).world;
      VaultKeyed(d, after) && Items(d, after) == V.PlainStep(Items(d, w), V.DropTenant(t))
  {
    hide V.Keyed, CleanedUp, V.Abstraction;
    V.StepSimulates(d.kek, VaultState(w), V.DropTenant(t));
    var dropped := V.Step(d.kek, VaultState(w), V.DropTenant(t));
    var after := TenantDeleted(w, t, actor).world;
    if t in w.db.tenants {
      VaultFrame(d.kek, dropped, VaultState(after));
      KeysAreTenants(d.kek, dropped, VaultState(after));
    } else {
      NothingToDrop(d.kek, VaultState(w), t);
    }
  }

  lemma NothingToDrop(kek: Key, st: V.State, t: Uuid)
    requires V.Keyed(kek, st) && t !in st.db.tenants
    ensures V.Abstraction(kek, V.Step(kek, st, V.DropTenant(t))) == V.Abstraction(kek, st)
  {
    V.DeksHaveTenants(kek, st);
    V.OwnersHaveDeks(kek, st);
    assert Cascaded(st.db, t).secrets == st.db.secrets;
    assert Cascaded(st.db, t).deks == st.db.deks;
    assert Cascaded(st.db, t).tenants == st.db.tenants;
    V.DropStep(kek, st, t);
    V.ContentsArePlaintexts(kek, st);
    V.ContentsArePlaintexts(kek, V.Step(kek, st, V.DropTenant(t)));
  }

  /** Requests that reach neither keys, nor secrets, nor the set of tenants. */
  predicate VaultBlind(op: Op) {
    op.Stop? || op.Pause? || op.Touch? || op.Join? || op.Leave? || op.Login? || op.Sweep?
  }

  lemma BlindKeepsVault(d: Deployment, w: World, op: Op)
    requires VaultBlind(op)
    ensures
      var after := Apply(d, w, op);
      && after.drawn == w.drawn && after.db.deks == w.db.deks && after.db.secrets == w.db.secrets
      && after.db.tenants.Keys == w.db.tenants.Keys
  {
    hide Stopped, PausedHost, SweptContainers, Decide, SweptRow;
  }

  lemma BlindSimulates(d: Deployment, w: World, op: Op)
    requires VaultKeyed(d, w) && VaultBlind(op)
    ensures VaultKeyed(d, Apply(d, w, op)) && Items(d, Apply(d, w, op)) == Items(d, w)
  {
    hide Apply, VaultKeyed;
    BlindKeepsVault(d, w, op);
    UnrelatedToVault(d, w, Apply(d, w, op));
  }

  lemma CreateSimulates(d: Deployment, w: World, op: Op)
    requires VaultKeyed(d, w) && op.Create?
    ensures VaultKeyed(d, Apply(d, w, op))
    ensures Items(d, Apply(d, w, op)) == PlainAfter(d, w, Items(d, w), op)
  {
    hide VaultKeyed, DirsCreated, NetworkCreated;
    UnrelatedToVault(d, w, Apply(d, w, op));
  }

  lemma DropSimulates(d: Deployment, w: World, t: Uuid, name: string)
    requires VaultKeyed(d, w)
    ensures
      var after := w.(db := Forgotten(w.db, t, name));
      VaultKeyed(d, after) && Items(d, after) == V.PlainStep(Items(d, w), V.Remove(t, name))
  {
    var after := w.(db := Forgotten(w.db, t, name));
    assert VaultState(after) == V.Step(d.kek, VaultState(w), V.Remove(t, name));
    SimulatesStep(d, w, after, V.Remove(t, name));
  }

  lemma RequestSimulates(d: Deployment, w: World, op: Op)
    requires VaultKeyed(d, w)
    ensures VaultKeyed(d, Apply(d, w, op))
    ensures Items(d, Apply(d, w, op)) == PlainAfter(d, w, Items(d, w), op)
  {
    hide TenantCreated, TenantStarted, TenantWoken, TenantDeleted, SecretSet, VaultKeyed, Items;
    if VaultBlind(op) {
      BlindSimulates(d, w, op);
    } else {
      match op
      case Create(_, _, _, _, _) => CreateSimulates(d, w, op);
      case Start(t, now, secrets) => StartKeepsVault(d, w, t, now, secrets);
      case Wake(t, now, secrets) => WakeKeepsVault(d, w, t, now, secrets);
      case SetSecret(t, name, s) => SecretSetSimulates(d, w, t, name, s);
      case DropSecret(t, name) => DropSimulates(d, w, t, name);
      case Delete(t, actor) =>
        DeletedOk(w, t, actor);
        DeleteSimulates(d, w, t, actor);
    }
  }

  lemma DeletedOk(w: World, t: Uuid, actor: Option<UserId>)
    ensures TenantDeleted(w, t, actor).result.Ok?
  {
  }

  lemma SimulatesStep(d: Deployment, w: World, after: World, op: V.Op)
    requires VaultKeyed(d, w) && VaultState(after) == V.Step(d.kek, VaultState(w), op)
    ensures VaultKeyed(d, after) && Items(d, after) == V.PlainStep(Items(d, w), op)
  {
    V.StepSimulates(d.kek, VaultState(w), op);
  }

  lemma UnrelatedToVault(d: Deployment, w: World, after: World)
    requires VaultKeyed(d, w) && w.drawn == after.drawn
    requires after.db.deks == w.db.deks && after.db.secrets == w.db.secrets
    requires w.db.tenants.Keys <= after.db.tenants.Keys
    ensures VaultKeyed(d, after)
    ensures Items(d, after) == Items(d, w).(tenants := after.db.tenants.Keys)
  {
    VaultFrame(d.kek, VaultState(w), VaultState(after));
  }

  /** Inside the running system, sweeps and disturbances included, the vault is a plain map. */
  lemma {:induction false} RunSimulatesPlainMap(d: Deployment, w: World, events: seq<Event>)
    requires VaultKeyed(d, w)
    ensures VaultKeyed(d, Run(d, w, events))
    ensures Items(d, Run(d, w, events)) == PlainRun(d, w, Items(d, w), events)
    decreases |events|
  {
    hide Apply, VaultKeyed, Items, PlainAfter;
    if events != [] {
      var next := Happen(d, w, events[0]);
      if events[0].Do? {
        RequestSimulates(d, w, events[0].op);
      } else {
        Disturbed(d, w, events[0].host);
      }
      RunSimulatesPlainMap(d, next, events[1..]);
    }
  }

  lemma Disturbed(d: Deployment, w: World, host: Host)
    requires VaultKeyed(d, w)
    ensures VaultKeyed(d, w.(host := host)) && Items(d, w.(host := host)) == Items(d, w)
  {
  }

  // --- The environment ---

  /** Some secret of t is delivered under variable v, with this text. */
  ghost predicate Delivers(items: map<(Uuid, string), Secret>, t: Uuid, v: string, text: string) {
    exists name :: (t, name) in items && EnvKey(items[(t, name)].target, name) == v && items[(t, name)].text == text
  }

  ghost predicate Mapped(items: map<(Uuid, string), Secret>, t: Uuid, v: string) {
    exists name :: (t, name) in items && EnvKey(items[(t, name)].target, name) == v
  }

  /** An environment in which secrets outrank the key of the row's provider, which outranks the base values. */
  ghost predicate EnvironmentOf(
    cfg: Settings, provider: Option<string>, items: map<(Uuid, string), Secret>, t: Uuid, env: map<string, string>)
  {
    forall v: string ::
      if Mapped(items, t, v) then v in env && Delivers(items, t, v, env[v])
      else if v == "ZAI_API_KEY" && provider == Some("zai") && cfg.zaiKey.Some? && cfg.zaiKey.value != "" then
        v in env && env[v] == cfg.zaiKey.value
      else if v == "MOONSHOT_API_KEY" && provider == Some("moonshot") && cfg.moonshotKey.Some?
              && cfg.moonshotKey.value != "" then
        v in env && env[v] == cfg.moonshotKey.value
      else if v == "MINIMAX_API_KEY" && provider == Some("minimax") && cfg.minimaxKey.Some?
              && cfg.minimaxKey.value != "" then
        v in env && env[v] == cfg.minimaxKey.value
      else if v == "OPENCLAW_GATEWAY_BIND" then v in env && env[v] == "lan"
      else if v == "OPENCLAW_GATEWAY_PORT" then v in env && env[v] == "18789"
      else if v == "OPENCLAW_CANVAS_PORT" then v in env && env[v] == "18790"
      else v !in env
  }

  lemma EnvFromDictionary(
    cfg: Settings, row: TenantRow, items: map<(Uuid, string), Secret>, t: Uuid, secrets: map<string, string>)
    requires Rekeyed(items, t, secrets) && ProviderVar(row).Ok?
    ensures EnvironmentOf(cfg, row.provider, items, t, ContainerEnv(cfg, ProviderVar(row).value, secrets))
  {
    hide ContainerEnv, ProviderVar, Rekeyed, Mapped, Delivers;
    EnvironmentSpelled(cfg, row, secrets);
    forall v: string ensures
      && (Mapped(items, t, v) <==> v in secrets)
      && (v in secrets ==> Delivers(items, t, v, secrets[v]))
    {
      MappedIsKey(items, t, secrets, v);
    }
  }

  lemma MappedIsKey(items: map<(Uuid, string), Secret>, t: Uuid, secrets: map<string, string>, v: string)
    requires Rekeyed(items, t, secrets)
    ensures Mapped(items, t, v) <==> v in secrets
    ensures v in secrets ==> Delivers(items, t, v, secrets[v])
  {
  }

  /**
   After any run of the system, stopping a tenant and starting it again gives a
   new container with the tenant's own mounts and network, whose environment is,
   for every variable, the current secret mapped to it, else the key of the
   provider the tenant had before the stop, else the base value.
   */
  lemma StopStartDelivers(
    d: Deployment, w: World, events: seq<Event>, t: Uuid, now: int, secrets: map<string, string>)
    requires VaultKeyed(d, w)
    requires
      var stopped := TenantStopped(Run(d, w, events), t).world;
      && TenantStarted(d.kek, d.cfg, stopped, t, now, secrets).result.Ok?
      && Retrieves(d.kek, DekEnsured(d.kek, stopped.db, stopped.drawn, t), t, secrets)
    ensures
      var before := Run(d, w, events);
      var host := TenantStarted(d.kek, d.cfg, TenantStopped(before, t).world, t, now, secrets).world.host;
      && t in before.db.tenants
      && ContainerName(t) in host.containers
      && var container := host.containers[ContainerName(t)];
      && NewFor(container, t, container.env)
      && EnvironmentOf(
           d.cfg, before.db.tenants[t].provider, PlainRun(d, w, Items(d, w), events).items, t, container.env)
  {
    hide Run, PlainRun, TenantStarted, TenantStopped, ContainerEnv, ProviderVar, EnvironmentOf, Retrieves;
    hide Rekeyed, NewFor, VaultKeyed, Items;
    var before := Run(d, w, events);
    var stopped := TenantStopped(before, t).world;
    RunSimulatesPlainMap(d, w, events);
    StoppedKeepsItems(d, before, t);
    StopEffect(d, before, t);
    StartEffect(d, stopped, t, now, secrets);
    FetchRekeyed(d, stopped, t, secrets);
    FreshContainer(d, stopped, t, now, secrets);
    EnvFromDictionary(d.cfg, stopped.db.tenants[t], Items(d, stopped).items, t, secrets);
  }

  lemma StoppedKeepsItems(d: Deployment, w: World, t: Uuid)
    requires VaultKeyed(d, w)
    ensures VaultKeyed(d, TenantStopped(w, t).world) && Items(d, TenantStopped(w, t).world) == Items(d, w)
  {
    var after := TenantStopped(w, t).world;
    assert after.db.tenants.Keys == w.db.tenants.Keys;
    UnrelatedToVault(d, w, after);
  }

  /** What the vault hands back is the plain map re-keyed, also when it had to make the data key first. */
  lemma FetchRekeyed(d: Deployment, w: World, t: Uuid, secrets: map<string, string>)
    requires VaultKeyed(d, w) && t in w.db.tenants
    ensures Retrieves(d.kek, DekEnsured(d.kek, w.db, w.drawn, t), t, secrets)
      <==> Rekeyed(Items(d, w).items, t, secrets)
  {
    V.RetrievalIsRekeying(d.kek, VaultState(w), [V.Fetch(t)], t, secrets);
    assert [V.Fetch(t)][1..] == [];
  }

  lemma FreshContainer(d: Deployment, w: World, t: Uuid, now: int, secrets: map<string, string>)
    requires ContainerName(t) !in w.host.containers
    requires TenantStarted(d.kek, d.cfg, w, t, now, secrets).result.Ok?
    ensures
      var host := TenantStarted(d.kek, d.cfg, w, t, now, secrets).world.host;
      && ContainerName(t) in host.containers
      && t in w.db.tenants && ProviderVar(w.db.tenants[t]).Ok?
      && host.containers[ContainerName(t)].env == ContainerEnv(d.cfg, ProviderVar(w.db.tenants[t]).value, secrets)
      && NewFor(host.containers[ContainerName(t)], t, host.containers[ContainerName(t)].env)
  {
    hide ContainerEnv, ProviderVar, Started;
    StartEffect(d, w, t, now, secrets);
    StartedHost(w.host, t, ContainerEnv(d.cfg, ProviderVar(w.db.tenants[t]).value, secrets));
  }

  // --- A provider chosen once ---

  /** The columns that are written when the row is made and never again. */
  ghost predicate SameIdentity(a: TenantRow, b: TenantRow) {
    && b.slug == a.slug && b.name == a.name && b.networkId == a.networkId && b.provider == a.provider
    && b.createdAt == a.createdAt
  }

  ghost predicate RowStays(a: Db, b: Db, t: Uuid) {
    t in a.tenants ==> t in b.tenants && SameIdentity(a.tenants[t], b.tenants[t])
  }

  lemma StartKeepsIdentity(d: Deployment, w: World, u: Uuid, now: int, secrets: map<string, string>, t: Uuid)
    ensures
      var o := TenantStarted(d.kek, d.cfg, w, u, now, secrets);
      o.result.Ok? ==> RowStays(w.db, o.world.db, t)
  {
    hide TenantStarted;
    StartEffect(d, w, u, now, secrets);
  }

  lemma WakeKeepsIdentity(d: Deployment, w: World, u: Uuid, now: int, secrets: map<string, string>, t: Uuid)
    ensures
      var o := TenantWoken(d.kek, d.cfg, w, u, now, secrets);
      o.result.Ok? ==> RowStays(w.db, o.world.db, t)
  {
    hide TenantStarted, TenantWoken;
    WakeEffect(d, w, u, now, secrets);
    StartKeepsIdentity(d, w, u, now, secrets, t);
  }

  lemma StatusKeepsIdentity(d: Deployment, w: World, u: Uuid, now: int, t: Uuid)
    ensures RowStays(w.db, Attempt(d, w, Stop(u)).world.db, t)
    ensures RowStays(w.db, Attempt(d, w, Pause(u)).world.db, t)
    ensures RowStays(w.db, Attempt(d, w, Touch(u, now)).world.db, t)
  {
    hide Attempt;
    StopEffect(d, w, u);
    PauseEffect(d, w, u);
    TouchEffect(d, w, u, now);
  }

  lemma CreateKeepsIdentity(d: Deployment, w: World, op: Op, t: Uuid)
    requires op.Create? && Attempt(d, w, op).result.Ok?
    ensures RowStays(w.db, Attempt(d, w, op).world.db, t)
  {
    hide Attempt;
    CreateEffect(d, w, op.t, op.slug, op.name, op.creator, op.now);
  }

  lemma SweepKeepsIdentity(d: Deployment, w: World, now: int, t: Uuid)
    ensures RowStays(w.db, Attempt(d, w, Sweep(now)).world.db, t)
  {
    hide Attempt;
    if t in w.db.tenants {
      SweepExactly(d, w, now, t);
    }
  }

  lemma DeleteKeepsIdentity(d: Deployment, w: World, u: Uuid, actor: Option<UserId>, t: Uuid)
    requires u != t
    ensures RowStays(w.db, Attempt(d, w, Delete(u, actor)).world.db, t)
  {
    hide Attempt;
    DeleteEffect(d, w, u, actor);
  }

  /** The other requests keep the whole table of tenants. */
  lemma MemberKeepsTenants(d: Deployment, w: World, op: Op)
    requires op.Join? || op.Leave? || op.Login? || op.SetSecret? || op.DropSecret?
    ensures Attempt(d, w, op).result.Ok? ==> Attempt(d, w, op).world.db.tenants == w.db.tenants
  {
    hide Attempt, MemberAdded;
    match op
    case Join(u, email, role, newId, actor) => JoinEffect(d, w, u, email, role, newId, actor);
    case Leave(u, member, actor) => LeaveEffect(d, w, u, member, actor);
    case SetSecret(u, name, s) => SecretEffect(d, w, u, name, s);
    case DropSecret(u, name) => ForgetEffect(d, w, u, name);
    case Login(email, newId) => LoginEffect(d, w, email, newId);
  }

  lemma RequestKeepsIdentity(d: Deployment, w: World, op: Op, t: Uuid)
    requires !(op.Delete? && op.t == t)
    ensures RowStays(w.db, Apply(d, w, op).db, t)
  {
    hide Attempt, RowStays, TenantStarted, TenantWoken;
    assert RowStays(w.db, w.db, t) by { RowIsItself(w.db, t); }
    if Attempt(d, w, op).result.Ok? {
      match op
      case Create(_, _, _, _, _) => CreateKeepsIdentity(d, w, op, t);
      case Start(u, now, secrets) =>
        StartEffect(d, w, u, now, secrets);
        StartKeepsIdentity(d, w, u, now, secrets, t);
      case Wake(u, now, secrets) =>
        WakeEffect(d, w, u, now, secrets);
        WakeKeepsIdentity(d, w, u, now, secrets, t);
      case Stop(u) => StatusKeepsIdentity(d, w, u, 0, t);
      case Pause(u) => StatusKeepsIdentity(d, w, u, 0, t);
      case Touch(u, now) => StatusKeepsIdentity(d, w, u, now, t);
      case Delete(u, actor) => DeleteKeepsIdentity(d, w, u, actor, t);
      case Sweep(now) => SweepKeepsIdentity(d, w, now, t);
      case _ =>
        MemberKeepsTenants(d, w, op);
        RowsAlike(w.db, Attempt(d, w, op).world.db, t);
    }
  }

  lemma RowIsItself(db: Db, t: Uuid)
    ensures RowStays(db, db, t)
  {
  }

  lemma RowsAlike(a: Db, b: Db, t: Uuid)
    requires a.tenants == b.tenants
    ensures RowStays(a, b, t)
  {
  }

  predicate NeverDeleted(events: seq<Event>, t: Uuid) {
    forall i :: 0 <= i < |events| ==> !(events[i].Do? && events[i].op.Delete? && events[i].op.t == t)
  }

  /** Whatever happens to a tenant short of its deletion, its slug, name, network id and provider stay. */
  lemma {:induction false} IdentityStays(d: Deployment, w: World, events: seq<Event>, t: Uuid)
    requires t in w.db.tenants && NeverDeleted(events, t)
    ensures t in Run(d, w, events).db.tenants
    ensures SameIdentity(w.db.tenants[t], Run(d, w, events).db.tenants[t])
    decreases |events|
  {
    hide Apply;
    if events != [] {
      if events[0].Do? {
        RequestKeepsIdentity(d, w, events[0].op, t);
      }
      IdentityStays(d, Happen(d, w, events[0]), events[1..], t);
    }
  }

  /**
   So the provider a tenant was provisioned with is served to the end: after any
   run, stop and start give its container that provider's key in that provider's
   variable, unless a secret takes the variable.
   */
  lemma ProviderServed(
    d: Deployment, w: World, events: seq<Event>, t: Uuid, now: int, secrets: map<string, string>)
    requires VaultKeyed(d, w) && t in w.db.tenants && NeverDeleted(events, t)
    requires
      var stopped := TenantStopped(Run(d, w, events), t).world;
      && TenantStarted(d.kek, d.cfg, stopped, t, now, secrets).result.Ok?
      && Retrieves(d.kek, DekEnsured(d.kek, stopped.db, stopped.drawn, t), t, secrets)
    ensures
      var stopped := TenantStopped(Run(d, w, events), t).world;
      var host := TenantStarted(d.kek, d.cfg, stopped, t, now, secrets).world.host;
      && ContainerName(t) in host.containers
      && var env := host.containers[ContainerName(t)].env;
      && (w.db.tenants[t].provider == Some("zai") && d.cfg.zaiKey.Some? && d.cfg.zaiKey.value != ""
          && "ZAI_API_KEY" !in secrets ==>
            "ZAI_API_KEY" in env && env["ZAI_API_KEY"] == d.cfg.zaiKey.value)
      && (w.db.tenants[t].provider == Some("moonshot") && d.cfg.moonshotKey.Some? && d.cfg.moonshotKey.value != ""
          && "MOONSHOT_API_KEY" !in secrets ==>
            "MOONSHOT_API_KEY" in env && env["MOONSHOT_API_KEY"] == d.cfg.moonshotKey.value)
      && (w.db.tenants[t].provider == Some("minimax") && d.cfg.minimaxKey.Some? && d.cfg.minimaxKey.value != ""
          && "MINIMAX_API_KEY" !in secrets ==>
            "MINIMAX_API_KEY" in env && env["MINIMAX_API_KEY"] == d.cfg.minimaxKey.value)
      && (forall v :: v in secrets ==> v in env && env[v] == secrets[v])
  {
    hide Run, TenantStarted, TenantStopped, ContainerEnv, ProviderVar, Retrieves, NewFor, VaultKeyed;
    IdentityStays(d, w, events, t);
    var before := Run(d, w, events);
    var stopped := TenantStopped(before, t).world;
    StopEffect(d, before, t);
    FreshContainer(d, stopped, t, now, secrets);
    EnvironmentSpelled(d.cfg, stopped.db.tenants[t], secrets);
  }

  // --- A secret on its way ---

  /**
   A secret just stored, under its target if it has one and else under its name:
   whatever dictionary the vault then hands back has the text there, and nothing
   under the name of a secret that has another target. `v` is where it goes, and
   no other secret goes there.
   */
  lemma SecretArrives(
    d: Deployment, w: World, t: Uuid, name: string, s: Secret, v: string, dict: map<string, string>)
    requires VaultKeyed(d, w) && t in w.db.tenants
    requires (s.target == Some(v) && v != "") || (s.target in {None, Some("")} && v == name)
    requires forall n :: (t, n) in w.db.secrets && n != name ==>
      var other := w.db.secrets[(t, n)].target;
      (other.Some? && other.value != "" ==> other.value != v) && (other in {None, Some("")} ==> n != v)
    requires
      var stored := Apply(d, w, SetSecret(t, name, s));
      Fetched(d.kek, stored.db, stored.drawn, t, dict)
    ensures v in dict && dict[v] == s.text
    ensures name != v
      && (forall n :: (t, n) in w.db.secrets && n != name ==> w.db.secrets[(t, n)].target != Some(name))
      ==> name !in dict
  {
    hide VaultKeyed, Items, Attempt, Fetchable, Retrieves, Rekeyed;
    var stored := Apply(d, w, SetSecret(t, name, s));
    RequestSimulates(d, w, SetSecret(t, name, s));
    SecretEffect(d, w, t, name, s);
    FetchRekeyed(d, stored, t, dict);
    SameTargets(d, w, t);
    assert Items(d, stored).items == Items(d, w).items[(t, name) := s] by { TenantsListed(d, w, t); }
    PlainArrives(Items(d, w).items, t, name, s, v, dict);
  }

  lemma TenantsListed(d: Deployment, w: World, t: Uuid)
    ensures t in w.db.tenants <==> t in Items(d, w).tenants
  {
  }

  lemma PlainArrives(
    items: map<(Uuid, string), Secret>, t: Uuid, name: string, s: Secret, v: string, dict: map<string, string>)
    requires (s.target == Some(v) && v != "") || (s.target in {None, Some("")} && v == name)
    requires forall n :: (t, n) in items && n != name ==>
      var other := items[(t, n)].target;
      (other.Some? && other.value != "" ==> other.value != v) && (other in {None, Some("")} ==> n != v)
    requires Rekeyed(items[(t, name) := s], t, dict)
    ensures v in dict && dict[v] == s.text
    ensures name != v && (forall n :: (t, n) in items && n != name ==> items[(t, n)].target != Some(name)) ==>
      name !in dict
  {
    var after := items[(t, name) := s];
    assert EnvKey(after[(t, name)].target, name) == v;
    forall n | (t, n) in after && n != name ensures EnvKey(after[(t, n)].target, n) != v {
      assert (t, n) in items && after[(t, n)] == items[(t, n)];
      var other := items[(t, n)].target;
      assert other in {None, Some("")} || (other.Some? && other.value != "");
    }
    if name != v && (forall n :: (t, n) in items && n != name ==> items[(t, n)].target != Some(name)) {
      forall n | (t, n) in after ensures EnvKey(after[(t, n)].target, n) != name {
        assert n != name ==> after[(t, n)] == items[(t, n)];
      }
    }
  }

  lemma SameTargets(d: Deployment, w: World, t: Uuid)
    requires VaultKeyed(d, w)
    ensures forall n :: (t, n) in Items(d, w).items <==> (t, n) in w.db.secrets
    ensures forall n :: (t, n) in w.db.secrets ==> Items(d, w).items[(t, n)].target == w.db.secrets[(t, n)].target
  {
    V.ContentsArePlaintexts(d.kek, VaultState(w));
  }

  /** And so does the container of the next stop and start. */
  lemma SecretReachesContainer(
    d: Deployment, w: World, t: Uuid, name: string, s: Secret, v: string, now: int, dict: map<string, string>)
    requires VaultKeyed(d, w) && t in w.db.tenants
    requires (s.target == Some(v) && v != "") || (s.target in {None, Some("")} && v == name)
    requires forall n :: (t, n) in w.db.secrets && n != name ==>
      var other := w.db.secrets[(t, n)].target;
      (other.Some? && other.value != "" ==> other.value != v) && (other in {None, Some("")} ==> n != v)
    requires
      var stopped := Apply(d, Apply(d, w, SetSecret(t, name, s)), Stop(t));
      && Fetched(d.kek, stopped.db, stopped.drawn, t, dict)
      && TenantStarted(d.kek, d.cfg, stopped, t, now, dict).result.Ok?
    ensures
      var stopped := Apply(d, Apply(d, w, SetSecret(t, name, s)), Stop(t));
      var host := TenantStarted(d.kek, d.cfg, stopped, t, now, dict).world.host;
      && ContainerName(t) in host.containers
      && v in host.containers[ContainerName(t)].env && host.containers[ContainerName(t)].env[v] == s.text
  {
    hide TenantStarted, ContainerEnv, ProviderVar, VaultKeyed, Attempt, TenantStopped, Fetchable, Retrieves;
    var stored := Apply(d, w, SetSecret(t, name, s));
    var stopped := Apply(d, stored, Stop(t));
    StopEffect(d, stored, t);
    FetchedAlike(d.kek, stored.db, stopped.db, stored.drawn, t, dict);
    StopDrawsNothing(d, stored, t);
    SecretArrives(d, w, t, name, s, v, dict);
    FreshContainer(d, stopped, t, now, dict);
    EnvironmentSpelled(d.cfg, stopped.db.tenants[t], dict);
  }

  lemma StopDrawsNothing(d: Deployment, w: World, t: Uuid)
    ensures Apply(d, w, Stop(t)).drawn == w.drawn
  {
  }

  lemma FetchedAlike(kek: Key, a: Db, b: Db, drawn: nat, t: Uuid, dict: map<string, string>)
    requires a.deks == b.deks && a.secrets == b.secrets && a.tenants.Keys == b.tenants.Keys
    ensures Fetched(kek, a, drawn, t, dict) <==> Fetched(kek, b, drawn, t, dict)
  {
    hide TenantReadable, Retrieves;
    var x, y := DekEnsured(kek, a, drawn, t), DekEnsured(kek, b, drawn, t);
    RowsReadAlike(kek, x, y, t, dict);
  }

  lemma RowsReadAlike(kek: Key, a: Db, b: Db, t: Uuid, dict: map<string, string>)
    requires a.deks == b.deks && a.secrets == b.secrets
    ensures TenantReadable(kek, a, t) <==> TenantReadable(kek, b, t)
    ensures Retrieves(kek, a, t, dict) <==> Retrieves(kek, b, t, dict)
  {
    hide TextOf, EnvKey;
    forall n ensures TextOf(kek, a, t, n) == TextOf(kek, b, t, n) {
      TextAlike(kek, a, b, t, n);
    }
    assert DekOf(kek, a, t) == DekOf(kek, b, t);
  }

  lemma TextAlike(kek: Key, a: Db, b: Db, t: Uuid, n: string)
    requires a.deks == b.deks && a.secrets == b.secrets
    ensures TextOf(kek, a, t, n) == TextOf(kek, b, t, n)
  {
  }

  /** Starting a container that is running or paused never changes its environment, mounts or networks. */
  lemma AwakeKeepsEnv(d: Deployment, w: World, t: Uuid, now: int, secrets: map<string, string>)
    requires Awake(w.host, t) && TenantStarted(d.kek, d.cfg, w, t, now, secrets).result.Ok?
    ensures TenantStarted(d.kek, d.cfg, w, t, now, secrets).world.host.containers[ContainerName(t)]
         == w.host.containers[ContainerName(t)].(status := Running)
  {
    hide ContainerEnv, ProviderVar;
  }
}
