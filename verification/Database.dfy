/**
 The tables, and the session through which a request sees and changes them. A
 session works on its own view; only a commit publishes it.
 */
module Database {
  import opened Prelude
  import opened Naming
  import opened Envelope

  type UserId = nat

  datatype TenantStatus = PROVISIONING | RUNNING | PAUSED | STOPPED | ERROR | DELETING

  datatype Role = TenantAdmin | TenantUser | TenantViewer

  datatype SecretType = EnvSecret | RefSecret

  datatype TenantRow = TenantRow(
    slug: string,
    name: string,
    status: TenantStatus,
    containerId: Option<nat>,
    networkId: Option<nat>,
    provider: Option<string>,
    lastActivity: Option<int>,
    createdAt: int)

  datatype DekRow = DekRow(encryptedDek: Sealed, nonce: nat)

  datatype SecretRow = SecretRow(ciphertext: Sealed, nonce: nat, kind: SecretType, target: Option<string>)

  datatype AuditAction =
    | TenantCreate(slug: string)
    | TenantDelete
    | ContainerStart
    | ContainerStop
    | ContainerPause
    | ContainerWake
    | MemberAdd(email: string, role: Role)
    | MemberRemove(removed: UserId)

  datatype AuditEvent = AuditEvent(tenant: Uuid, user: Option<UserId>, action: AuditAction)

  /** Users are indexed by their unique e-mail address; the audit log is in commit order. */
  datatype Db = Db(
    tenants: map<Uuid, TenantRow>,
    users: map<string, UserId>,
    memberships: map<(Uuid, UserId), Role>,
    deks: map<Uuid, DekRow>,
    secrets: map<(Uuid, string), SecretRow>,
    audit: seq<AuditEvent>)

  predicate SlugInUse(db: Db, slug: string) {
    exists t :: t in db.tenants && db.tenants[t].slug == slug
  }

  /** When the row was last active: the creation time stands in until the first activity. */
  function LastActive(row: TenantRow): int {
    if row.lastActivity.Some? then row.lastActivity.value else row.createdAt
  }

  function Audited(db: Db, t: Uuid, user: Option<UserId>, action: AuditAction): Db {
    db.(audit := db.audit + [AuditEvent(t, user, action)])
  }

  /** UPDATE ... WHERE tenant_id = t: no row, no change. */
  function Updated(db: Db, t: Uuid, row: TenantRow -> TenantRow): Db {
    if t in db.tenants then db.(tenants := db.tenants[t := row(db.tenants[t])]) else db
  }

  /** DELETE of a tenant row cascades to everything that references it, never to the audit log. */
  function Cascaded(db: Db, t: Uuid): Db {
    db.(tenants := db.tenants - {t},
        memberships := map k | k in db.memberships && k.0 != t :: db.memberships[k],
        deks := db.deks - {t},
        secrets := map k | k in db.secrets && k.0 != t :: db.secrets[k])
  }

  /** The constraints the schema declares. */
  ghost predicate Sound(db: Db) {
    && (forall t, u :: t in db.tenants && u in db.tenants && t != u ==> db.tenants[t].slug != db.tenants[u].slug)
    && (forall a, b :: a in db.users && b in db.users && a != b ==> db.users[a] != db.users[b])
    && (forall k :: k in db.memberships ==> k.0 in db.tenants && k.1 in db.users.Values)
    && (forall t :: t in db.deks ==> t in db.tenants)
    && (forall k :: k in db.secrets ==> k.0 in db.tenants)
  }

  /** A result set: the members of a set, once each, in an order the database chooses. */
  method Enumerate<T(==)>(s: set<T>) returns (q: seq<T>)
    ensures forall x :: x in q <==> x in s
    ensures forall i, k :: 0 <= i < k < |q| ==> q[i] != q[k]
  {
    q := [];
    var rest := s;
    while rest != {}
      invariant rest <= s
      invariant forall x :: x in q <==> x in s - rest
      invariant forall i, k :: 0 <= i < k < |q| ==> q[i] != q[k]
      decreases |rest|
    {
      var x :| x in rest;
      assert x !in q;
      q := q + [x];
      rest := rest - {x};
    }
  }

  /** A reliable session never loses its connection. */
  class Session {
    const reliable: bool
    var db: Db
    var committed: Db

    constructor (db: Db, reliable: bool)
      ensures this.db == db && this.committed == db && this.reliable == reliable
    {
      this.reliable := reliable;
      this.db, this.committed := db, db;
    }

    /** Every statement is a round trip that may find the connection gone. */
    method Await() returns (ok: bool)
      ensures reliable ==> ok
    {
      ok := Happens(reliable);
    }

    /** A commit that raises has published nothing. */
    method Commit() returns (r: Result<()>)
      modifies `committed
      ensures r.Ok? ==> committed == db
      ensures r.Err? ==> committed == old(committed) && r.error == DatabaseError
      ensures reliable ==> r.Ok?
    {
      var ok := Await();
      if !ok {
        return Err(DatabaseError);
      }
      committed := db;
      return Ok(());
    }

    method Rollback()
      modifies `db
      ensures db == committed
    {
      db := committed;
    }

    method SelectByStatus(status: TenantStatus) returns (rows: seq<Uuid>)
      ensures forall t :: t in rows <==> t in db.tenants && db.tenants[t].status == status
      ensures forall i, k :: 0 <= i < k < |rows| ==> rows[i] != rows[k]
    {
      rows := Enumerate(set t | t in db.tenants && db.tenants[t].status == status);
    }

    method SelectSecretNames(t: Uuid) returns (names: seq<string>)
      ensures forall n :: n in names <==> (t, n) in db.secrets
      ensures forall i, k :: 0 <= i < k < |names| ==> names[i] != names[k]
    {
      names := Enumerate(set k | k in db.secrets && k.0 == t :: k.1);
      assert forall n :: (t, n) in db.secrets ==> (t, n).1 in names;
    }

    method UpdateTenant(t: Uuid, row: TenantRow -> TenantRow) returns (r: Result<()>)
      modifies `db
      ensures r.Ok? ==> db == Updated(old(db), t, row)
      ensures r.Err? ==> r.error == DatabaseError
      ensures reliable ==> r.Ok?
    {
      var ok := Await();
      if !ok {
        return Err(DatabaseError);
      }
      db := Updated(db, t, row);
      return Ok(());
    }

    method EmitAudit(t: Uuid, user: Option<UserId>, action: AuditAction) returns (r: Result<()>)
      modifies `db
      ensures r.Ok? ==> db == Audited(old(db), t, user, action)
      ensures r.Err? ==> r.error == DatabaseError
      ensures reliable ==> r.Ok?
    {
      var ok := Await();
      if !ok {
        return Err(DatabaseError);
      }
      db := Audited(db, t, user, action);
      return Ok(());
    }
  }
}
