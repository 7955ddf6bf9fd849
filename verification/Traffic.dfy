/**
 Whether traffic through the edge counts as activity: it does exactly when it
 finds the tenant asleep. A tenant that is running is hibernated on the dot
 however often it is visited.
 */
module Traffic {
  import opened Prelude
  import opened Naming
  import opened Docker
  import opened Database
  import opened Vault
  import opened Provider
  import opened Tenants
  import opened Hibernation
  import opened Runs
  import opened Slices
  import opened Effects
  import opened Resolution
  import Edge

  /** Whether a wake gets past the vault: it asks only when there is a container to start. */
  ghost predicate PassesVault(d: Deployment, w: World, t: Uuid) {
    Awake(w.host, t) || Fetchable(d.kek, w.db, w.drawn, t)
  }

  /** One request through the edge for t: a wake if the reported state asks for one, and nothing else of consequence. */
  ghost function Visited(d: Deployment, w: World, t: Uuid, now: int, secrets: map<string, string>): World {
    if Edge.NeedsWake(StateOf(w.host, t)) && PassesVault(d, w, t) then Apply(d, w, Wake(t, now, secrets)) else w
  }

  /** The dictionary is one the vault hands back, if it is asked and can. */
  ghost predicate HandedBack(d: Deployment, w: World, t: Uuid, secrets: map<string, string>) {
    !Awake(w.host, t) && Fetchable(d.kek, w.db, w.drawn, t) ==> Fetched(d.kek, w.db, w.drawn, t, secrets)
  }

  /** The edge's one call that changes anything, when served, is that wake. */
  lemma ServedIsVisited(d: Deployment, x: Edge.Exchange, slug: Identifier, t: Uuid)
    requires Edge.WakeServed(d.kek, d.cfg, x, slug) && Resolve(x.before.db, slug) == Ok(t)
    requires Edge.NeedsWake(StateOf(x.before.host, t))
    ensures exists secrets ::
      HandedBack(d, x.before, t, secrets) && x.after == Visited(d, x.before, t, x.now, secrets)
  {
    hide TenantWoken, StateOf, Fetchable, Awake;
    var secrets :|
      && TenantWoken(d.kek, d.cfg, x.before, t, x.now, secrets).result.Ok?
      && x.after == TenantWoken(d.kek, d.cfg, x.before, t, x.now, secrets).world
      && (!Awake(x.before.host, t) ==> Fetched(d.kek, x.before.db, x.before.drawn, t, secrets));
    assert HandedBack(d, x.before, t, secrets) && x.after == Visited(d, x.before, t, x.now, secrets);
  }

  /** The documented promise: every visit is the tenant's latest activity. */
  ghost predicate CountsAsActivity(d: Deployment, w: World, t: Uuid)
    requires t in w.db.tenants
  {
    forall now, secrets ::
      var after := Visited(d, w, t, now, secrets).db.tenants;
      HandedBack(d, w, t, secrets) && LastActive(w.db.tenants[t]) < now ==>
        t in after && LastActive(after[t]) == now
  }

  /**
   The visit finds the tenant's container paused, or finds it exited, never started
   or missing while the secrets can be fetched and the provider is one of the known.
   */
  ghost predicate FoundAsleep(d: Deployment, w: World, t: Uuid)
    requires t in w.db.tenants
  {
    var name := ContainerName(t);
    if name in w.host.containers && w.host.containers[name].status == Paused then true
    else
      && (name !in w.host.containers || w.host.containers[name].status in {Exited, Created})
      && Fetchable(d.kek, w.db, w.drawn, t)
      && w.db.tenants[t].provider in {None, Some(""), Some("zai"), Some("moonshot"), Some("minimax")}
  }

  lemma VisitActivity(d: Deployment, w: World, t: Uuid, now: int, secrets: map<string, string>)
    requires t in w.db.tenants
    ensures
      var after := Visited(d, w, t, now, secrets).db.tenants;
      t in after && LastActive(after[t]) == if FoundAsleep(d, w, t) then now else LastActive(w.db.tenants[t])
  {
    hide TenantStarted, TenantWoken, ProviderVar, StateOf, Fetchable, ContainerName;
    StartEffect(d, w, t, now, secrets);
    WakeEffect(d, w, t, now, secrets);
    Edge.StatusReported(w.host, t);
  }

  /** Exactly when it is kept: the tenant is asleep and can be woken. */
  lemma CountsExactly(d: Deployment, w: World, t: Uuid)
    requires t in w.db.tenants
    ensures CountsAsActivity(d, w, t) <==> FoundAsleep(d, w, t)
  {
    hide Visited, FoundAsleep, LastActive, HandedBack;
    forall now, secrets ensures
      var after := Visited(d, w, t, now, secrets).db.tenants;
      t in after && LastActive(after[t]) == if FoundAsleep(d, w, t) then now else LastActive(w.db.tenants[t])
    {
      VisitActivity(d, w, t, now, secrets);
    }
    var secrets := SomeHandedBack(d, w, t);
    var later := LastActive(w.db.tenants[t]) + 1;
    var after := Visited(d, w, t, later, secrets).db.tenants;
    assert CountsAsActivity(d, w, t) ==> t in after && LastActive(after[t]) == later;
  }

  lemma SomeHandedBack(d: Deployment, w: World, t: Uuid) returns (secrets: map<string, string>)
    ensures HandedBack(d, w, t, secrets)
  {
    hide TenantReadable, Retrieves, DekEnsured, KeyUsable;
    secrets := map[];
    if Fetchable(d.kek, w.db, w.drawn, t) {
      secrets := SomeDictionary(d.kek, DekEnsured(d.kek, w.db, w.drawn, t), t);
    }
  }

  // --- Visits over whole runs ---

  datatype Doing = Visit(t: Uuid, now: int, secrets: map<string, string>) | Other(event: Event)

  ghost function After(d: Deployment, w: World, doing: Doing): World {
    match doing
    case Visit(t, now, secrets) => Visited(d, w, t, now, secrets)
    case Other(e) => Happen(d, w, e)
  }

  ghost function Lived(d: Deployment, w: World, doings: seq<Doing>): World
    decreases |doings|
  {
    if doings == [] then w else Lived(d, After(d, w, doings[0]), doings[1..])
  }

  /** t is sent visits, at any time, and nothing else; sweeps come no later than the smaller threshold after `last`. */
  ghost predicate OnlyVisited(d: Deployment, w: World, doings: seq<Doing>, t: Uuid, last: int)
    decreases |doings|
  {
    doings != [] ==>
      && (match doings[0]
          case Visit(_, _, _) => true
          case Other(Disturb(host)) => HoldingsOf(host, t) == HoldingsOf(w.host, t)
          case Other(Do(op)) =>
            && Addressee(op) != Some(t)
            && (op.Sweep? ==> op.now <= last + d.cfg.idlePause && op.now <= last + d.cfg.idleStop))
      && OnlyVisited(d, After(d, w, doings[0]), doings[1..], t, last)
  }

  lemma {:induction false} VisitsAlone(d: Deployment, w: World, doings: seq<Doing>, t: Uuid, last: int)
    requires forall i :: 0 <= i < |doings| ==> doings[i].Visit?
    ensures OnlyVisited(d, w, doings, t, last)
    decreases |doings|
  {
    hide After;
    if doings != [] {
      VisitsAlone(d, After(d, w, doings[0]), doings[1..], t, last);
    }
  }

  lemma SliceShows(w: World, t: Uuid)
    ensures SliceOf(w, t).row == Lookup(w.db.tenants, t)
    ensures StateOf(w.host, t) == StateRunning <==>
      SliceOf(w, t).holdings.container.Some? && SliceOf(w, t).holdings.container.value.status == Running
  {
  }

  lemma DoingLeavesNoTrace(d: Deployment, w: World, doing: Doing, t: Uuid)
    requires t in w.db.tenants && StateOf(w.host, t) == StateRunning
    requires OnlyVisited(d, w, [doing], t, LastActive(w.db.tenants[t]))
    ensures SliceOf(After(d, w, doing), t) == SliceOf(w, t)
  {
    hide SliceOf, Apply, StateOf;
    match doing
    case Visit(u, now, secrets) =>
      if u != t && Edge.NeedsWake(StateOf(w.host, u)) && PassesVault(d, w, u) {
        RequestFrames(d, w, Wake(u, now, secrets), t);
      }
    case Other(e) =>
      EventFrames(d, w, e, t);
      SliceShows(w, t);
      if e.Do? && e.op.Sweep? {
        SweepIsSwept(d, w, e.op.now);
        EarlySweepKeeps(d.cfg, w, e.op.now, t);
      }
  }

  /** Nothing of a running tenant's changes, however often it is visited. */
  lemma {:induction false} VisitsLeaveNoTrace(d: Deployment, w: World, doings: seq<Doing>, t: Uuid)
    requires t in w.db.tenants && StateOf(w.host, t) == StateRunning
    requires OnlyVisited(d, w, doings, t, LastActive(w.db.tenants[t]))
    ensures SliceOf(Lived(d, w, doings), t) == SliceOf(w, t)
    decreases |doings|
  {
    hide SliceOf, After, StateOf, LastActive;
    if doings != [] {
      var next := After(d, w, doings[0]);
      assert [doings[0]][1..] == [];
      DoingLeavesNoTrace(d, w, doings[0], t);
      SliceShows(w, t);
      SliceShows(next, t);
      VisitsLeaveNoTrace(d, next, doings[1..], t);
    }
  }

  /**
   A RUNNING tenant that is only visited is hibernated by a sweep exactly as if
   nobody had: it stays RUNNING if and only if neither threshold has passed
   since its last activity, which no visit has moved.
   */
  lemma BusyYetHibernated(d: Deployment, w: World, doings: seq<Doing>, t: Uuid, now: int)
    requires t in w.db.tenants && w.db.tenants[t].status == RUNNING && StateOf(w.host, t) == StateRunning
    requires OnlyVisited(d, w, doings, t, LastActive(w.db.tenants[t]))
    ensures
      var last := LastActive(w.db.tenants[t]);
      var after := Swept(d.cfg, Lived(d, w, doings), now);
      && t in after.db.tenants
      && after.db.tenants[t].status ==
           (if now <= last + d.cfg.idleStop then if now <= last + d.cfg.idlePause then RUNNING else PAUSED else STOPPED)
      && StateOf(after.host, t) == match after.db.tenants[t].status {
           case RUNNING => StateRunning
           case PAUSED => StatePaused
           case _ => StateNotFound
         }
  {
    hide SliceOf, Lived, OnlyVisited, Swept;
    VisitsLeaveNoTrace(d, w, doings, t);
    var lived := Lived(d, w, doings);
    SweepActsOnSlice(d.cfg, lived, now, t);
    SweptShows(d.cfg, w, now, t);
    SameShown(Swept(d.cfg, lived, now), Swept(d.cfg, w, now), t) by {
      SweepActsOnSlice(d.cfg, w, now, t);
    }
  }

  lemma SweptShows(cfg: Settings, w: World, now: int, t: Uuid)
    requires t in w.db.tenants && w.db.tenants[t].status == RUNNING && StateOf(w.host, t) == StateRunning
    ensures
      var last := LastActive(w.db.tenants[t]);
      var after := Swept(cfg, w, now);
      && t in after.db.tenants
      && after.db.tenants[t].status ==
           (if now <= last + cfg.idleStop then if now <= last + cfg.idlePause then RUNNING else PAUSED else STOPPED)
      && StateOf(after.host, t) == match after.db.tenants[t].status {
           case RUNNING => StateRunning
           case PAUSED => StatePaused
           case _ => StateNotFound
         }
  {
    assert Fate(cfg, w.db.tenants, ContainerName(t), now) == Decide(cfg, w.db.tenants[t], now);
  }
}
