/**
 What the audit log alone can tell. Replaying it gives a status at least as
 awake as each live tenant's, and exactly its status while nothing has been
 swept; and it gives the membership table exactly.
 */
module AuditReplay {
  import opened Prelude
  import opened Naming
  import opened Docker
  import opened Envelope
  import opened Database
  import opened Vault
  import opened Provider
  import opened Tenants
  import opened Hibernation
  import opened Runs

  // --- Status ---

  /** The status a reader of the log would give a tenant. */
  function ReplayStatus(audit: seq<AuditEvent>, t: Uuid): Option<TenantStatus>
    decreases |audit|
  {
    if audit == [] then None
    else
      var before := ReplayStatus(audit[..|audit| - 1], t);
      var e := audit[|audit| - 1];
      if e.tenant != t then before
      else match e.action
        case TenantCreate(_) => Some(STOPPED)
        case TenantDelete => None
        case ContainerStart => Some(RUNNING)
        case ContainerWake => Some(RUNNING)
        case ContainerStop => Some(STOPPED)
        case ContainerPause => Some(PAUSED)
        case _ => before
  }

  function Awakeness(s: TenantStatus): int {
    match s
    case RUNNING => 2
    case PAUSED => 1
    case _ => 0
  }

  ghost predicate StatusBounded(db: Db, t: Uuid) {
    t in db.tenants ==>
      && db.tenants[t].status in {RUNNING, PAUSED, STOPPED}
      && ReplayStatus(db.audit, t).Some?
      && Awakeness(db.tenants[t].status) <= Awakeness(ReplayStatus(db.audit, t).value)
  }

  ghost predicate StatusExact(db: Db, t: Uuid) {
    t in db.tenants ==>
      db.tenants[t].status in {RUNNING, PAUSED, STOPPED} && ReplayStatus(db.audit, t) == Some(db.tenants[t].status)
  }

  lemma ReplayAppended(audit: seq<AuditEvent>, e: AuditEvent, t: Uuid)
    ensures ReplayStatus(audit + [e], t) ==
      if e.tenant != t then ReplayStatus(audit, t)
      else match e.action {
        case TenantCreate(_) => Some(STOPPED)
        case TenantDelete => None
        case ContainerStart | ContainerWake => Some(RUNNING)
        case ContainerStop => Some(STOPPED)
        case ContainerPause => Some(PAUSED)
        case MemberAdd(_, _) | MemberRemove(_) => ReplayStatus(audit, t)
      }
  {
    assert (audit + [e])[..|audit + [e]| - 1] == audit;
  }

  /**
   How a request moves one tenant's row and the log together: neither, the row's
   other columns, one logged event that sets the status, or one that is not about it.
   */
  ghost predicate LoggedStep(a: Db, b: Db, t: Uuid) {
    || (b.audit == a.audit && (t in b.tenants ==> t in a.tenants && b.tenants[t].status == a.tenants[t].status))
    || (exists e :: b.audit == a.audit + [e] && LoggedBy(a, b, t, e))
  }

  ghost predicate LoggedBy(a: Db, b: Db, t: Uuid, e: AuditEvent) {
    t in b.tenants ==>
      if e.tenant != t || e.action.MemberAdd? || e.action.MemberRemove?
      then t in a.tenants && b.tenants[t].status == a.tenants[t].status
      else match e.action {
        case TenantCreate(_) => b.tenants[t].status == STOPPED
        case TenantDelete => false
        case ContainerStart | ContainerWake => b.tenants[t].status == RUNNING
        case ContainerStop => b.tenants[t].status == STOPPED
        case ContainerPause => b.tenants[t].status == PAUSED
        case _ => false
      }
  }

  lemma StartLogs(d: Deployment, w: World, u: Uuid, now: int, secrets: map<string, string>, t: Uuid)
    requires TenantStarted(d.kek, d.cfg, w, u, now, secrets).result.Ok?
    ensures LoggedStep(w.db, TenantStarted(d.kek, d.cfg, w, u, now, secrets).world.db, t)
  {
    hide ContainerEnv, ProviderVar, Started;
    var after := TenantStarted(d.kek, d.cfg, w, u, now, secrets).world.db;
    assert LoggedBy(w.db, after, t, AuditEvent(u, None, ContainerStart));
  }

  lemma WakeLogs(d: Deployment, w: World, u: Uuid, now: int, secrets: map<string, string>, t: Uuid)
    requires TenantWoken(d.kek, d.cfg, w, u, now, secrets).result.Ok?
    ensures LoggedStep(w.db, TenantWoken(d.kek, d.cfg, w, u, now, secrets).world.db, t)
  {
    hide TenantStarted, StateOf, Unpaused;
    var after := TenantWoken(d.kek, d.cfg, w, u, now, secrets).world.db;
    match StateOf(w.host, u)
    case StateRunning =>
    case StatePaused => assert LoggedBy(w.db, after, t, AuditEvent(u, None, ContainerWake));
    case _ => StartLogs(d, w, u, now, secrets, t);
  }

  lemma StatusLogs(w: World, u: Uuid, now: int, t: Uuid)
    ensures LoggedStep(w.db, TenantStopped(w, u).world.db, t)
    ensures LoggedStep(w.db, TenantPaused(w, u).world.db, t)
    ensures LoggedStep(w.db, TenantTouched(w, u, now).world.db, t)
  {
    assert LoggedBy(w.db, TenantStopped(w, u).world.db, t, AuditEvent(u, None, ContainerStop));
    assert LoggedBy(w.db, TenantPaused(w, u).world.db, t, AuditEvent(u, None, ContainerPause));
  }

  lemma CreateLogs(w: World, op: Op, t: Uuid)
    requires op.Create? && TenantCreated(w, op.t, op.slug, op.name, op.creator, op.now).result.Ok?
    ensures LoggedStep(w.db, TenantCreated(w, op.t, op.slug, op.name, op.creator, op.now).world.db, t)
  {
    hide DirsCreated, NetworkCreated;
    var after := TenantCreated(w, op.t, op.slug, op.name, op.creator, op.now).world.db;
    assert LoggedBy(w.db, after, t, AuditEvent(op.t, op.creator, TenantCreate(op.slug)));
  }

  lemma DeleteLogs(w: World, u: Uuid, actor: Option<UserId>, t: Uuid)
    ensures LoggedStep(w.db, TenantDeleted(w, u, actor).world.db, t)
  {
    hide CleanedUp;
    if u in w.db.tenants {
      assert LoggedBy(w.db, TenantDeleted(w, u, actor).world.db, t, AuditEvent(u, actor, TenantDelete));
    }
  }

  lemma MembersLog(w: World, op: Op, t: Uuid)
    requires op.Join? || op.Leave?
    ensures op.Join? && MemberAdded(w, op.t, op.email, op.role, op.newId, op.actor).result.Ok? ==>
      LoggedStep(w.db, MemberAdded(w, op.t, op.email, op.role, op.newId, op.actor).world.db, t)
    ensures op.Leave? ==> LoggedStep(w.db, MemberRemoved(w, op.t, op.member, op.actor).world.db, t)
  {
    match op
    case Join(u, email, role, newId, actor) =>
      var o := MemberAdded(w, u, email, role, newId, actor);
      if o.result.Ok? {
        assert LoggedBy(w.db, o.world.db, t, AuditEvent(u, actor, MemberAdd(email, role)));
      }
    case Leave(u, member, actor) =>
      if (u, member) in w.db.memberships {
        assert LoggedBy(
          w.db, MemberRemoved(w, u, member, actor).world.db, t, AuditEvent(u, actor, MemberRemove(member)));
      }
  }

  lemma SecretSetLogs(kek: Key, w: World, u: Uuid, name: string, s: Secret, t: Uuid)
    ensures LoggedStep(w.db, SecretSet(kek, w, u, name, s).world.db, t)
  {
    hide DekOf;
  }

  lemma RequestLogs(d: Deployment, w: World, op: Op, t: Uuid)
    requires !op.Sweep?
    ensures LoggedStep(w.db, Apply(d, w, op).db, t)
  {
    hide TenantCreated, TenantStarted, TenantStopped, TenantPaused, TenantWoken, TenantTouched, TenantDeleted;
    hide MemberAdded, MemberRemoved, SecretSet, LoggedBy;
    if Attempt(d, w, op).result.Ok? {
      match op
      case Create(_, _, _, _, _) => CreateLogs(w, op, t);
      case Start(u, now, secrets) => StartLogs(d, w, u, now, secrets, t);
      case Stop(u) => StatusLogs(w, u, 0, t);
      case Pause(u) => StatusLogs(w, u, 0, t);
      case Touch(u, now) => StatusLogs(w, u, now, t);
      case Wake(u, now, secrets) => WakeLogs(d, w, u, now, secrets, t);
      case Delete(u, actor) => DeleteLogs(w, u, actor, t);
      case Join(_, _, _, _, _) => MembersLog(w, op, t);
      case Leave(_, _, _) => MembersLog(w, op, t);
      case SetSecret(u, name, s) => SecretSetLogs(d.kek, w, u, name, s, t);
      case DropSecret(_, _) =>
      case Login(_, _) =>
    }
  }

  lemma LoggedStepKeeps(a: Db, b: Db, t: Uuid)
    requires LoggedStep(a, b, t)
    ensures StatusBounded(a, t) ==> StatusBounded(b, t)
    ensures StatusExact(a, t) ==> StatusExact(b, t)
  {
    if b.audit != a.audit || !(t in b.tenants ==> t in a.tenants && b.tenants[t].status == a.tenants[t].status) {
      var e :| b.audit == a.audit + [e] && LoggedBy(a, b, t, e);
      ReplayAppended(a.audit, e, t);
    }
  }

  lemma SweepLowers(cfg: Settings, w: World, now: int, t: Uuid)
    requires StatusBounded(w.db, t)
    ensures StatusBounded(Swept(cfg, w, now).db, t)
  {
    if t in w.db.tenants {
      SweepEffect(cfg, w, now, t);
    }
  }

  /**
   Over every run, with any disturbance in between, a live tenant's status is
   never more awake than the log says; without sweeps it is what the log says.
   */
  lemma {:induction false} ReplayBoundsStatus(d: Deployment, w: World, events: seq<Event>, t: Uuid)
    ensures StatusBounded(w.db, t) ==> StatusBounded(Run(d, w, events).db, t)
    ensures StatusExact(w.db, t) && (forall i :: 0 <= i < |events| ==> !(events[i].Do? && events[i].op.Sweep?)) ==>
      StatusExact(Run(d, w, events).db, t)
    decreases |events|
  {
    hide Apply, StatusBounded, StatusExact, Swept;
    if events != [] {
      var next := Happen(d, w, events[0]);
      if events[0].Do? {
        EventKeepsStatus(d, w, events[0].op, t);
      }
      ReplayBoundsStatus(d, next, events[1..], t);
    }
  }

  lemma EventKeepsStatus(d: Deployment, w: World, op: Op, t: Uuid)
    ensures StatusBounded(w.db, t) ==> StatusBounded(Apply(d, w, op).db, t)
    ensures StatusExact(w.db, t) && !op.Sweep? ==> StatusExact(Apply(d, w, op).db, t)
  {
    hide StatusBounded, StatusExact, Swept;
    if op.Sweep? {
      assert Apply(d, w, op) == Swept(d.cfg, w, op.now);
      if StatusBounded(w.db, t) {
        SweepLowers(d.cfg, w, op.now, t);
      }
    } else {
      RequestLogs(d, w, op, t);
      LoggedStepKeeps(w.db, Apply(d, w, op).db, t);
    }
  }

  // --- Members ---

  function Strike(m: map<(Uuid, UserId), Role>, t: Uuid): map<(Uuid, UserId), Role> {
    map k | k in m && k.0 != t :: m[k]
  }

  /** One event's effect on the membership table; addresses are looked up among the users. */
  function ReplayOne(m: map<(Uuid, UserId), Role>, e: AuditEvent, users: map<string, UserId>)
    : map<(Uuid, UserId), Role>
  {
    match e.action
    case TenantCreate(_) => if e.user.Some? then m[(e.tenant, e.user.value) := TenantAdmin] else m
    case MemberAdd(email, role) => if email in users then m[(e.tenant, users[email]) := role] else m
    case MemberRemove(u) => m - {(e.tenant, u)}
    case TenantDelete => Strike(m, e.tenant)
    case _ => m
  }

  function ReplayMembers(audit: seq<AuditEvent>, users: map<string, UserId>): map<(Uuid, UserId), Role>
    decreases |audit|
  {
    if audit == [] then map[]
    else ReplayOne(ReplayMembers(audit[..|audit| - 1], users), audit[|audit| - 1], users)
  }

  /** Every address the log mentions is a user. */
  ghost predicate AddressesKnown(audit: seq<AuditEvent>, users: map<string, UserId>) {
    forall i :: 0 <= i < |audit| && audit[i].action.MemberAdd? ==> audit[i].action.email in users
  }

  ghost predicate MembersReplayed(db: Db) {
    && AddressesKnown(db.audit, db.users)
    && db.memberships == ReplayMembers(db.audit, db.users)
  }

  lemma {:induction false} MoreUsersSameReplay(
    audit: seq<AuditEvent>, users: map<string, UserId>, more: map<string, UserId>)
    requires AddressesKnown(audit, users)
    requires forall email :: email in users ==> email in more && more[email] == users[email]
    ensures ReplayMembers(audit, more) == ReplayMembers(audit, users)
    decreases |audit|
  {
    if audit != [] {
      MoreUsersSameReplay(audit[..|audit| - 1], users, more);
    }
  }

  /** Every step extends the users, and either keeps table and log or appends one event and its effect. */
  ghost predicate MemberStep(a: Db, b: Db) {
    && (forall email :: email in a.users ==> email in b.users && b.users[email] == a.users[email])
    && (|| (b.audit == a.audit && b.memberships == a.memberships)
        || (exists e :: b.audit == a.audit + [e] && MemberEffect(a, b, e)))
  }

  ghost predicate MemberEffect(a: Db, b: Db, e: AuditEvent) {
    && (e.action.MemberAdd? ==> e.action.email in b.users)
    && b.memberships == ReplayOne(a.memberships, e, b.users)
  }

  lemma MemberStepKeeps(a: Db, b: Db)
    requires MembersReplayed(a) && MemberStep(a, b)
    ensures MembersReplayed(b)
  {
    MoreUsersSameReplay(a.audit, a.users, b.users);
    if !(b.audit == a.audit && b.memberships == a.memberships) {
      var e :| b.audit == a.audit + [e] && MemberEffect(a, b, e);
      assert b.audit[..|b.audit| - 1] == a.audit;
    }
  }

  lemma StartKeepsMembers(d: Deployment, w: World, u: Uuid, now: int, secrets: map<string, string>)
    requires TenantStarted(d.kek, d.cfg, w, u, now, secrets).result.Ok?
    ensures MemberStep(w.db, TenantStarted(d.kek, d.cfg, w, u, now, secrets).world.db)
  {
    hide ContainerEnv, ProviderVar, Started;
    var after := TenantStarted(d.kek, d.cfg, w, u, now, secrets).world.db;
    assert MemberEffect(w.db, after, AuditEvent(u, None, ContainerStart));
  }

  lemma WakeKeepsMembers(d: Deployment, w: World, u: Uuid, now: int, secrets: map<string, string>)
    requires TenantWoken(d.kek, d.cfg, w, u, now, secrets).result.Ok?
    ensures MemberStep(w.db, TenantWoken(d.kek, d.cfg, w, u, now, secrets).world.db)
  {
    hide TenantStarted, StateOf, Unpaused;
    match StateOf(w.host, u)
    case StateRunning =>
    case StatePaused =>
      var after := TenantWoken(d.kek, d.cfg, w, u, now, secrets).world.db;
      assert MemberEffect(w.db, after, AuditEvent(u, None, ContainerWake));
    case _ => StartKeepsMembers(d, w, u, now, secrets);
  }

  lemma StatusKeepsMembers(w: World, u: Uuid, now: int)
    ensures MemberStep(w.db, TenantStopped(w, u).world.db)
    ensures MemberStep(w.db, TenantPaused(w, u).world.db)
    ensures MemberStep(w.db, TenantTouched(w, u, now).world.db)
  {
    assert MemberEffect(w.db, TenantStopped(w, u).world.db, AuditEvent(u, None, ContainerStop));
    assert MemberEffect(w.db, TenantPaused(w, u).world.db, AuditEvent(u, None, ContainerPause));
  }

  lemma CreateMembers(w: World, op: Op)
    requires op.Create? && TenantCreated(w, op.t, op.slug, op.name, op.creator, op.now).result.Ok?
    ensures MemberStep(w.db, TenantCreated(w, op.t, op.slug, op.name, op.creator, op.now).world.db)
  {
    hide DirsCreated, NetworkCreated;
    var after := TenantCreated(w, op.t, op.slug, op.name, op.creator, op.now).world.db;
    assert MemberEffect(w.db, after, AuditEvent(op.t, op.creator, TenantCreate(op.slug)));
  }

  lemma DeleteMembers(w: World, u: Uuid, actor: Option<UserId>)
    ensures MemberStep(w.db, TenantDeleted(w, u, actor).world.db)
  {
    hide CleanedUp;
    if u in w.db.tenants {
      assert MemberEffect(w.db, TenantDeleted(w, u, actor).world.db, AuditEvent(u, actor, TenantDelete));
    }
  }

  lemma JoinMembers(w: World, op: Op)
    requires op.Join? && MemberAdded(w, op.t, op.email, op.role, op.newId, op.actor).result.Ok?
    ensures MemberStep(w.db, MemberAdded(w, op.t, op.email, op.role, op.newId, op.actor).world.db)
  {
    var after := MemberAdded(w, op.t, op.email, op.role, op.newId, op.actor).world.db;
    assert MemberEffect(w.db, after, AuditEvent(op.t, op.actor, MemberAdd(op.email, op.role)));
  }

  lemma LeaveMembers(w: World, op: Op)
    requires op.Leave?
    ensures MemberStep(w.db, MemberRemoved(w, op.t, op.member, op.actor).world.db)
  {
    if (op.t, op.member) in w.db.memberships {
      assert MemberEffect(
        w.db, MemberRemoved(w, op.t, op.member, op.actor).world.db,
        AuditEvent(op.t, op.actor, MemberRemove(op.member)));
    }
  }

  lemma SecretSetKeepsMembers(kek: Key, w: World, u: Uuid, name: string, s: Secret)
    ensures MemberStep(w.db, SecretSet(kek, w, u, name, s).world.db)
  {
    hide DekOf;
  }

  lemma RequestKeepsMembers(d: Deployment, w: World, op: Op)
    ensures MemberStep(w.db, Apply(d, w, op).db)
  {
    hide TenantCreated, TenantStarted, TenantStopped, TenantPaused, TenantWoken, TenantTouched, TenantDeleted;
    hide MemberAdded, MemberRemoved, SecretSet, MemberEffect, SweptRows, SweptContainers;
    if Attempt(d, w, op).result.Ok? {
      match op
      case Create(_, _, _, _, _) => CreateMembers(w, op);
      case Start(u, now, secrets) => StartKeepsMembers(d, w, u, now, secrets);
      case Stop(u) => StatusKeepsMembers(w, u, 0);
      case Pause(u) => StatusKeepsMembers(w, u, 0);
      case Touch(u, now) => StatusKeepsMembers(w, u, now);
      case Wake(u, now, secrets) => WakeKeepsMembers(d, w, u, now, secrets);
      case Delete(u, actor) => DeleteMembers(w, u, actor);
      case Join(_, _, _, _, _) => JoinMembers(w, op);
      case Leave(_, _, _) => LeaveMembers(w, op);
      case SetSecret(u, name, s) => SecretSetKeepsMembers(d.kek, w, u, name, s);
      case DropSecret(_, _) =>
      case Login(_, _) =>
      case Sweep(_) =>
    }
  }

  /** Over every run the membership table is the replay of the log, disturbances included. */
  lemma {:induction false} MembershipIsReplay(d: Deployment, w: World, events: seq<Event>)
    requires MembersReplayed(w.db)
    ensures MembersReplayed(Run(d, w, events).db)
    decreases |events|
  {
    hide Apply, MembersReplayed;
    if events != [] {
      if events[0].Do? {
        RequestKeepsMembers(d, w, events[0].op);
        MemberStepKeeps(w.db, Apply(d, w, events[0].op).db);
      }
      MembershipIsReplay(d, Happen(d, w, events[0]), events[1..]);
    }
  }

  /** The empty log replays to the empty tables. */
  lemma EmptyReplays(t: Uuid)
    ensures StatusExact(EMPTY_DB, t) && StatusBounded(EMPTY_DB, t) && MembersReplayed(EMPTY_DB)
  {
  }
}
