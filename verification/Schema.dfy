/** The schema's constraints hold over every run: unique slugs and users, and no dangling reference. */
module Schema {
  import opened Prelude
  import opened Naming
  import opened Docker
  import opened Envelope
  import opened Database
  import opened Vault
  import opened Tenants
  import opened Hibernation
  import opened Runs

  /** A new user's identifier is one nobody has. */
  predicate FreshUser(w: World, op: Op) {
    op.Join? || op.Login? ==> op.newId !in w.db.users.Values
  }

  predicate FreshUsers(d: Deployment, w: World, events: seq<Event>)
    decreases |events|
  {
    events != [] ==>
      && (events[0].Do? ==> FreshUser(w, events[0].op))
      && FreshUsers(d, Happen(d, w, events[0]), events[1..])
  }

  /** Rows that keep their slugs, users that only grow, references that only shrink or stay. */
  lemma SoundFrame(a: Db, b: Db)
    requires Sound(a) && b.users == a.users && b.memberships == a.memberships
    requires b.tenants.Keys == a.tenants.Keys && forall t :: t in a.tenants ==> b.tenants[t].slug == a.tenants[t].slug
    requires forall t :: t in b.deks ==> t in a.tenants
    requires forall k :: k in b.secrets ==> k.0 in a.tenants
    ensures Sound(b)
  {
  }

  lemma StatusKeepsSound(w: World, t: Uuid, now: int)
    requires Sound(w.db)
    ensures Sound(TenantStopped(w, t).world.db)
    ensures Sound(TenantPaused(w, t).world.db)
    ensures Sound(TenantTouched(w, t, now).world.db)
  {
    hide Sound;
    SoundFrame(w.db, TenantStopped(w, t).world.db) by { SoundParts(w.db); }
    SoundFrame(w.db, TenantPaused(w, t).world.db) by { SoundParts(w.db); }
    SoundFrame(w.db, TenantTouched(w, t, now).world.db) by { SoundParts(w.db); }
  }

  lemma SoundParts(db: Db)
    requires Sound(db)
    ensures forall t :: t in db.deks ==> t in db.tenants
    ensures forall k :: k in db.secrets ==> k.0 in db.tenants
  {
  }

  lemma CreateKeepsSound(w: World, op: Op)
    requires Sound(w.db) && op.Create?
    requires TenantCreated(w, op.t, op.slug, op.name, op.creator, op.now).result.Ok?
    ensures Sound(TenantCreated(w, op.t, op.slug, op.name, op.creator, op.now).world.db)
  {
    hide DirsCreated, NetworkCreated, Sound;
    var row := TenantCreated(w, op.t, op.slug, op.name, op.creator, op.now).world.db.tenants[op.t];
    var audit := Audited(w.db, op.t, op.creator, TenantCreate(op.slug)).audit;
    NewTenantSound(w.db, op.t, row, audit);
    if op.creator.Some? {
      var joined := w.db.(tenants := w.db.tenants[op.t := row], audit := audit);
      NewMemberSound(joined, (op.t, op.creator.value), TenantAdmin);
    }
  }

  lemma NewTenantSound(db: Db, t: Uuid, row: TenantRow, audit: seq<AuditEvent>)
    requires Sound(db) && t !in db.tenants && !SlugInUse(db, row.slug)
    ensures Sound(db.(tenants := db.tenants[t := row], audit := audit))
  {
  }

  lemma NewMemberSound(db: Db, k: (Uuid, UserId), role: Role)
    requires Sound(db) && k.0 in db.tenants && k.1 in db.users.Values
    ensures Sound(db.(memberships := db.memberships[k := role]))
  {
  }

  lemma DeleteKeepsSound(w: World, t: Uuid, actor: Option<UserId>)
    requires Sound(w.db)
    ensures Sound(TenantDeleted(w, t, actor).world.db)
  {
    hide CleanedUp;
  }

  lemma UsersKeepValues(users: map<string, UserId>, email: string, newId: UserId)
    requires newId !in users.Values
    requires forall a, b :: a in users && b in users && a != b ==> users[a] != users[b]
    ensures
      var after := if email in users then users else users[email := newId];
      && (forall u :: u in users.Values ==> u in after.Values)
      && (forall a, b :: a in after && b in after && a != b ==> after[a] != after[b])
  {
    var after := if email in users then users else users[email := newId];
    forall u | u in users.Values ensures u in after.Values {
      var e :| e in users && users[e] == u;
      assert after[e] == u;
    }
    forall a, b | a in after && b in after && a != b ensures after[a] != after[b] {
      assert a in users ==> users[a] in users.Values;
      assert b in users ==> users[b] in users.Values;
    }
  }

  lemma UsersKeepSound(db: Db, email: string, newId: UserId)
    requires Sound(db) && newId !in db.users.Values
    ensures Sound(UserEnsured(db, email, newId))
  {
    UsersKeepValues(db.users, email, newId);
  }

  lemma MembersKeepSound(w: World, op: Op)
    requires Sound(w.db) && FreshUser(w, op) && (op.Join? || op.Leave?)
    ensures op.Join? && MemberAdded(w, op.t, op.email, op.role, op.newId, op.actor).result.Ok? ==>
      Sound(MemberAdded(w, op.t, op.email, op.role, op.newId, op.actor).world.db)
    ensures op.Leave? ==> Sound(MemberRemoved(w, op.t, op.member, op.actor).world.db)
  {
    if op.Join? {
      UsersKeepSound(w.db, op.email, op.newId);
      var users := UserEnsured(w.db, op.email, op.newId).users;
      assert users[op.email] in users.Values;
    }
  }

  lemma SecretSetKeepsSound(kek: Key, w: World, t: Uuid, name: string, s: Secret)
    requires Sound(w.db)
    ensures Sound(SecretSet(kek, w, t, name, s).world.db)
  {
    hide Sound, DekOf;
    SoundFrame(w.db, SecretSet(kek, w, t, name, s).world.db) by { SoundParts(w.db); }
  }

  lemma StartKeepsSound(d: Deployment, w: World, t: Uuid, now: int, secrets: map<string, string>)
    requires Sound(w.db)
    ensures Sound(TenantStarted(d.kek, d.cfg, w, t, now, secrets).world.db)
  {
    hide Sound, ContainerEnv, ProviderVar, Started;
    SoundFrame(w.db, TenantStarted(d.kek, d.cfg, w, t, now, secrets).world.db) by { SoundParts(w.db); }
  }

  lemma WakeKeepsSound(d: Deployment, w: World, t: Uuid, now: int, secrets: map<string, string>)
    requires Sound(w.db)
    ensures Sound(TenantWoken(d.kek, d.cfg, w, t, now, secrets).world.db)
  {
    hide Sound, TenantStarted, StateOf, Unpaused;
    if !Awake(w.host, t) {
      StartKeepsSound(d, w, t, now, secrets);
    }
    SoundParts(w.db);
    SoundFrame(w.db, Updated(w.db, t, row => RowTouched(row, now)));
    SoundFrame(w.db, Audited(Updated(w.db, t, row => RowWoken(row, now)), t, None, ContainerWake));
    StateAwake(w.host, t);
  }

  lemma StateAwake(h: Host, t: Uuid)
    ensures Awake(h, t) <==> StateOf(h, t) in {StateRunning, StatePaused}
  {
  }

  lemma RequestKeepsSound(d: Deployment, w: World, op: Op)
    requires Sound(w.db) && FreshUser(w, op)
    ensures Sound(Apply(d, w, op).db)
  {
    hide TenantCreated, TenantStarted, TenantStopped, TenantPaused, TenantWoken, TenantTouched, TenantDeleted;
    hide MemberAdded, MemberRemoved, SecretSet, UserEnsured, Sound, SweptContainers, Decide;
    SoundParts(w.db);
    match op
    case Create(_, _, _, _, _) =>
      if Attempt(d, w, op).result.Ok? {
        CreateKeepsSound(w, op);
      }
    case Start(t, now, secrets) => StartKeepsSound(d, w, t, now, secrets);
    case Stop(t) => StatusKeepsSound(w, t, 0);
    case Pause(t) => StatusKeepsSound(w, t, 0);
    case Touch(t, now) => StatusKeepsSound(w, t, now);
    case Wake(t, now, secrets) => WakeKeepsSound(d, w, t, now, secrets);
    case Delete(t, actor) => DeleteKeepsSound(w, t, actor);
    case Join(_, _, _, _, _) =>
      if Attempt(d, w, op).result.Ok? {
        MembersKeepSound(w, op);
      }
    case Leave(_, _, _) => MembersKeepSound(w, op);
    case SetSecret(t, name, s) => SecretSetKeepsSound(d.kek, w, t, name, s);
    case DropSecret(t, name) => SoundFrame(w.db, Forgotten(w.db, t, name));
    case Login(email, newId) => UsersKeepSound(w.db, email, newId);
    case Sweep(now) => SoundFrame(w.db, Swept(d.cfg, w, now).db);
  }

  lemma {:induction false} RunKeepsSound(d: Deployment, w: World, events: seq<Event>)
    requires Sound(w.db) && FreshUsers(d, w, events)
    ensures Sound(Run(d, w, events).db)
    decreases |events|
  {
    hide Apply, Sound, FreshUser;
    if events != [] {
      if events[0].Do? {
        RequestKeepsSound(d, w, events[0].op);
      }
      RunKeepsSound(d, Happen(d, w, events[0]), events[1..]);
    }
  }
}
