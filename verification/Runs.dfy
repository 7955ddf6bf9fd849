/** Runs: any sequence of requests and sweeps, each committed or rolled back as a whole. */
module Runs {
  import opened Prelude
  import opened Naming
  import opened Docker
  import opened Envelope
  import opened Database
  import opened Vault
  import opened Provider
  import opened Tenants
  import opened Hibernation

  /** What a deployment fixes: the master key and the settings. */
  datatype Deployment = Deployment(kek: Key, cfg: Settings)

  datatype Op =
    | Create(t: Uuid, slug: string, name: string, creator: Option<UserId>, now: int)
    | Start(t: Uuid, now: int, secrets: map<string, string>)
    | Stop(t: Uuid)
    | Pause(t: Uuid)
    | Wake(t: Uuid, now: int, secrets: map<string, string>)
    | Touch(t: Uuid, now: int)
    | Delete(t: Uuid, actor: Option<UserId>)
    | Join(t: Uuid, email: string, role: Role, newId: UserId, actor: Option<UserId>)
    | Leave(t: Uuid, member: UserId, actor: Option<UserId>)
    | SetSecret(t: Uuid, name: string, secret: Secret)
    | DropSecret(t: Uuid, name: string)
    | Login(email: string, newId: UserId)
    | Sweep(now: int)

  function SecretSet(kek: Key, w: World, t: Uuid, name: string, s: Secret): Outcome<()> {
    if t !in w.db.tenants then Outcome(w, Err(IntegrityError))
    else if DekOf(kek, DekEnsured(kek, w.db, w.drawn, t), t).None? then Outcome(w, Err(InvalidTag))
    else
      Outcome(World(Stored(kek, w.db, w.drawn, t, name, s), w.host, DrawnByDek(w.db, w.drawn, t) + 1), Ok(()))
  }

  function Done<T>(r: Result<T>): Result<()> {
    if r.Ok? then Ok(()) else Err(r.error)
  }

  function Attempt(d: Deployment, w: World, op: Op): Outcome<()> {
    match op
    case Create(t, slug, name, creator, now) => TenantCreated(w, t, slug, name, creator, now)
    case Start(t, now, secrets) =>
      var o := TenantStarted(d.kek, d.cfg, w, t, now, secrets);
      Outcome(o.world, Done(o.result))
    case Stop(t) => TenantStopped(w, t)
    case Pause(t) => TenantPaused(w, t)
    case Wake(t, now, secrets) =>
      var o := TenantWoken(d.kek, d.cfg, w, t, now, secrets);
      Outcome(o.world, Done(o.result))
    case Touch(t, now) => TenantTouched(w, t, now)
    case Delete(t, user) => TenantDeleted(w, t, user)
    case Join(t, email, role, newId, actor) =>
      var o := MemberAdded(w, t, email, role, newId, actor);
      Outcome(o.world, Done(o.result))
    case Leave(t, user, actor) => MemberRemoved(w, t, user, actor)
    case SetSecret(t, name, s) => SecretSet(d.kek, w, t, name, s)
    case DropSecret(t, name) => Outcome(w.(db := Forgotten(w.db, t, name)), Ok(()))
    case Login(email, newId) => Outcome(w.(db := UserEnsured(w.db, email, newId)), Ok(()))
    case Sweep(now) => Outcome(Swept(d.cfg, w, now), Ok(()))
  }

  /** A request that raises commits no row; what it did to Docker stays done. */
  function Apply(d: Deployment, w: World, op: Op): World {
    var o := Attempt(d, w, op);
    if o.result.Ok? then o.world else o.world.(db := w.db)
  }

  /** The tenant a request is addressed to; logins and sweeps have none. */
  function Addressee(op: Op): Option<Uuid> {
    match op
    case Login(_, _) => None
    case Sweep(_) => None
    case Create(t, _, _, _, _) => Some(t)
    case Start(t, _, _) => Some(t)
    case Stop(t) => Some(t)
    case Pause(t) => Some(t)
    case Wake(t, _, _) => Some(t)
    case Touch(t, _) => Some(t)
    case Delete(t, _) => Some(t)
    case Join(t, _, _, _, _) => Some(t)
    case Leave(t, _, _) => Some(t)
    case SetSecret(t, _, _) => Some(t)
    case DropSecret(t, _) => Some(t)
  }

  /**
   What happens to the system: a request, or a disturbance. A disturbance is
   drift on the Docker host, or a request that died with its rows rolled back:
   either way the host may be anything afterwards and the database is as before.
   */
  datatype Event = Do(op: Op) | Disturb(host: Host)

  function Happen(d: Deployment, w: World, e: Event): World {
    match e
    case Do(op) => Apply(d, w, op)
    case Disturb(host) => w.(host := host)
  }

  function Run(d: Deployment, w: World, events: seq<Event>): World
    decreases |events|
  {
    if events == [] then w else Run(d, Happen(d, w, events[0]), events[1..])
  }

  predicate Undisturbed(events: seq<Event>) {
    forall i :: 0 <= i < |events| ==> events[i].Do?
  }

  /** A deployment before its first request. */
  const EMPTY_DB: Db := Db(map[], map[], map[], map[], map[], [])
}
