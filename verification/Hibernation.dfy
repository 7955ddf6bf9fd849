/**
 Idle hibernation. One sweep makes two passes over the rows; its effect is a
 single decision per row. Sweeps absorb one another, and a sweep that dies half
 way is made good by the next one that completes.
 */
module Hibernation {
  import opened Prelude
  import opened Naming
  import opened Docker
  import opened Database
  import opened Provider
  import opened Tenants

  datatype Decision = Keep | PauseIt | StopIt

  /** What one sweep decides for a row, from the row alone. */
  function Decide(cfg: Settings, row: TenantRow, now: int): Decision {
    var last := LastActive(row);
    if row.status in {RUNNING, PAUSED} && last < now - cfg.idleStop then StopIt
    else if row.status == RUNNING && last < now - cfg.idlePause then PauseIt
    else Keep
  }

  function SweptRow(row: TenantRow, d: Decision): TenantRow {
    match d
    case Keep => row
    case PauseIt => RowPaused(row)
    case StopIt => RowStopped(row)
  }

  function Fate(cfg: Settings, rows: map<Uuid, TenantRow>, name: string, now: int): Decision {
    match Owner(name)
    case None => Keep
    case Some(t) => if t in rows then Decide(cfg, rows[t], now) else Keep
  }

  function SweptRows(cfg: Settings, rows: map<Uuid, TenantRow>, now: int): map<Uuid, TenantRow> {
    map t | t in rows :: SweptRow(rows[t], Decide(cfg, rows[t], now))
  }

  function SweptContainers(cfg: Settings, rows: map<Uuid, TenantRow>, cs: map<string, Container>, now: int)
    : map<string, Container>
  {
    map n | n in cs && Fate(cfg, rows, n, now) != StopIt ::
      if Fate(cfg, rows, n, now) == PauseIt then PausedContainer(cs[n]) else cs[n]
  }

  /** The one-pass sweep: every row and container by its own decision, at once. */
  function Swept(cfg: Settings, w: World, now: int): World {
    w.(db := w.db.(tenants := SweptRows(cfg, w.db.tenants, now)),
       host := w.host.(containers := SweptContainers(cfg, w.db.tenants, w.host.containers, now)))
  }

  // --- Absorption ---

  /** How a row's decision at a later time looks once an earlier sweep has changed the row. */
  lemma DecideAgain(cfg: Settings, row: TenantRow, a: int, b: int)
    requires a <= b
    ensures
      var first, direct := Decide(cfg, row, a), Decide(cfg, row, b);
      var second := Decide(cfg, SweptRow(row, first), b);
      && SweptRow(SweptRow(row, first), second) == SweptRow(row, direct)
      && (first == Keep ==> second == direct)
      && (first == PauseIt ==> direct != Keep && second == if direct == StopIt then StopIt else Keep)
      && (first == StopIt ==> direct == StopIt && second == Keep)
  {
  }

  lemma FateAgain(cfg: Settings, rows: map<Uuid, TenantRow>, n: string, a: int, b: int)
    requires a <= b
    ensures
      var first, direct := Fate(cfg, rows, n, a), Fate(cfg, rows, n, b);
      var second := Fate(cfg, SweptRows(cfg, rows, a), n, b);
      && (first == Keep ==> second == direct)
      && (first == PauseIt ==> direct != Keep && second == if direct == StopIt then StopIt else Keep)
      && (first == StopIt ==> direct == StopIt && second == Keep)
  {
    if Owner(n).Some? && Owner(n).value in rows {
      DecideAgain(cfg, rows[Owner(n).value], a, b);
    }
  }

  /** A sweep after an earlier sweep decides as if the earlier one had not happened. */
  lemma SweepAbsorbs(cfg: Settings, w: World, a: int, b: int)
    requires a <= b
    ensures Swept(cfg, Swept(cfg, w, a), b) == Swept(cfg, w, b)
  {
    var rows := w.db.tenants;
    var swept := SweptRows(cfg, rows, a);
    forall t ensures SameAt(SweptRows(cfg, swept, b), SweptRows(cfg, rows, b), t) {
      if t in rows {
        DecideAgain(cfg, rows[t], a, b);
      }
    }
    MapsEqual(SweptRows(cfg, swept, b), SweptRows(cfg, rows, b));
    var cs := w.host.containers;
    var twice := SweptContainers(cfg, swept, SweptContainers(cfg, rows, cs, a), b);
    var once := SweptContainers(cfg, rows, cs, b);
    forall n ensures SameAt(twice, once, n) {
      FateAgain(cfg, rows, n, a, b);
    }
    MapsEqual(twice, once);
  }

  function SweptAll(cfg: Settings, w: World, times: seq<int>): World
    decreases |times|
  {
    if times == [] then w else SweptAll(cfg, Swept(cfg, w, times[0]), times[1..])
  }

  ghost predicate Nondecreasing(times: seq<int>) {
    forall i, k :: 0 <= i < k < |times| ==> times[i] <= times[k]
  }

  /** Any number of sweeps amounts to the last of them: missed or repeated sweeps leave no trace. */
  lemma {:induction false} OnlyLastSweepCounts(cfg: Settings, w: World, times: seq<int>)
    requires times != [] && Nondecreasing(times)
    ensures SweptAll(cfg, w, times) == Swept(cfg, w, times[|times| - 1])
    decreases |times|
  {
    if |times| > 1 {
      OnlyLastSweepCounts(cfg, Swept(cfg, w, times[0]), times[1..]);
      SweepAbsorbs(cfg, w, times[0], times[|times| - 1]);
    } else {
      assert times[1..] == [];
    }
  }

  // --- Torn sweeps ---

  /** What a failed sweep may have done to one container: nothing, all of its decision, or half of a stop. */
  ghost predicate TornAt(cfg: Settings, w: World, cs: map<string, Container>, now: int, n: string) {
    match Fate(cfg, w.db.tenants, n, now)
    case Keep => SameAt(w.host.containers, cs, n)
    case PauseIt =>
      && (n in cs <==> n in w.host.containers)
      && (n in cs ==> cs[n] in {w.host.containers[n], PausedContainer(w.host.containers[n])})
    case StopIt =>
      n in cs ==> n in w.host.containers && cs[n] in {w.host.containers[n], Halted(w.host.containers[n])}
  }

  /** A sweep whose rows were rolled back, having reached any of its Docker effects. */
  ghost predicate Torn(cfg: Settings, w: World, w': World, now: int) {
    && w' == w.(host := w.host.(containers := w'.host.containers))
    && forall n :: TornAt(cfg, w, w'.host.containers, now, n)
  }

  /** A completed sweep at the same or a later time lands where it would have landed without the torn one. */
  lemma TornSweepRecovers(cfg: Settings, w: World, w': World, torn: int, later: int)
    requires Torn(cfg, w, w', torn) && torn <= later
    ensures Swept(cfg, w', later) == Swept(cfg, w, later)
  {
    var rows := w.db.tenants;
    var cs, cs' := w.host.containers, w'.host.containers;
    forall n ensures SameAt(SweptContainers(cfg, rows, cs', later), SweptContainers(cfg, rows, cs, later), n) {
      assert TornAt(cfg, w, cs', torn, n);
      FateAgain(cfg, rows, n, torn, later);
    }
    MapsEqual(SweptContainers(cfg, rows, cs', later), SweptContainers(cfg, rows, cs, later));
  }

  /** Losing the commit after every Docker effect is the most torn a sweep can be. */
  lemma SweptIsTorn(cfg: Settings, w: World, now: int)
    ensures Torn(cfg, w, Swept(cfg, w, now).(db := w.db), now)
  {
    forall n ensures TornAt(cfg, w, Swept(cfg, w, now).host.containers, now, n) {
    }
  }

  /** A stop that halts the container and then fails to remove it is among them. */
  lemma HalfStopIsTorn(cfg: Settings, w: World, now: int, t: Uuid)
    requires t in w.db.tenants && Decide(cfg, w.db.tenants[t], now) == StopIt
    requires ContainerName(t) in w.host.containers
    requires w.host.containers[ContainerName(t)].status in {Running, Paused, Restarting}
    ensures
      var name := ContainerName(t);
      var halted := w.host.containers[name := w.host.containers[name].(status := Exited)];
      Torn(cfg, w, w.(host := w.host.(containers := halted)), now)
  {
    var name := ContainerName(t);
    var halted := w.host.containers[name := w.host.containers[name].(status := Exited)];
    forall n ensures TornAt(cfg, w, halted, now, n) {
      if n != name && Fate(cfg, w.db.tenants, n, now) == Keep {
        assert SameAt(w.host.containers, halted, n);
      }
    }
  }

  // --- What one sweep leaves behind ---

  /**
   No RUNNING or PAUSED row past its threshold remains; rows change only by
   their own decision; activity, identity and network never change.
   */
  lemma SweepEffect(cfg: Settings, w: World, now: int, t: Uuid)
    requires t in w.db.tenants
    ensures
      var before, after := w.db.tenants[t], Swept(cfg, w, now).db.tenants[t];
      && LastActive(after) == LastActive(before)
      && (after.status == RUNNING ==>
            now - cfg.idleStop <= LastActive(after) && now - cfg.idlePause <= LastActive(after))
      && (after.status == PAUSED ==> now - cfg.idleStop <= LastActive(after))
      && (after != before ==> before.status in {RUNNING, PAUSED} && after.status in {PAUSED, STOPPED})
      && after == before.(status := after.status, containerId := after.containerId)
    ensures Decide(cfg, Swept(cfg, w, now).db.tenants[t], now) == Keep
  {
  }

  // --- The two passes ---

  /** The sweep restricted to the rows already visited. */
  function PartRows(cfg: Settings, rows: map<Uuid, TenantRow>, now: int, done: set<Uuid>): map<Uuid, TenantRow> {
    map t | t in rows :: if t in done then SweptRow(rows[t], Decide(cfg, rows[t], now)) else rows[t]
  }

  function PartFate(cfg: Settings, rows: map<Uuid, TenantRow>, n: string, now: int, done: set<Uuid>): Decision {
    if Owner(n).Some? && Owner(n).value in done then Fate(cfg, rows, n, now) else Keep
  }

  function PartContainers(
    cfg: Settings, rows: map<Uuid, TenantRow>, cs: map<string, Container>, now: int, done: set<Uuid>)
    : map<string, Container>
  {
    map n | n in cs && PartFate(cfg, rows, n, now, done) != StopIt ::
      if PartFate(cfg, rows, n, now, done) == PauseIt then PausedContainer(cs[n]) else cs[n]
  }

  function Part(cfg: Settings, w: World, now: int, done: set<Uuid>): World {
    w.(db := w.db.(tenants := PartRows(cfg, w.db.tenants, now, done)),
       host := w.host.(containers := PartContainers(cfg, w.db.tenants, w.host.containers, now, done)))
  }

  lemma PartNone(cfg: Settings, w: World, now: int)
    ensures Part(cfg, w, now, {}) == w
  {
    assert PartRows(cfg, w.db.tenants, now, {}) == w.db.tenants;
    assert PartContainers(cfg, w.db.tenants, w.host.containers, now, {}) == w.host.containers;
  }

  /** Visiting one more row carries out that row's decision and nothing else. */
  lemma PartStep(cfg: Settings, w: World, now: int, done: set<Uuid>, t: Uuid)
    requires t in w.db.tenants && t !in done
    ensures
      var d := Decide(cfg, w.db.tenants[t], now);
      var part := Part(cfg, w, now, done);
      && part.db.tenants[t] == w.db.tenants[t]
      && Part(cfg, w, now, done + {t}).db.tenants == part.db.tenants[t := SweptRow(w.db.tenants[t], d)]
      && Part(cfg, w, now, done + {t}).host == match d {
           case Keep => part.host
           case PauseIt => PausedHost(part.host, t)
           case StopIt => Stopped(part.host, t)
         }
  {
    var rows, cs := w.db.tenants, w.host.containers;
    assert PartRows(cfg, rows, now, done + {t})
        == PartRows(cfg, rows, now, done)[t := SweptRow(rows[t], Decide(cfg, rows[t], now))];
    PartContainersStep(cfg, rows, cs, now, done, t);
  }

  lemma PartContainersStep(
    cfg: Settings, rows: map<Uuid, TenantRow>, cs: map<string, Container>, now: int, done: set<Uuid>, t: Uuid)
    requires t in rows && t !in done
    ensures
      var n := ContainerName(t);
      var before := PartContainers(cfg, rows, cs, now, done);
      && SameAt(before, cs, n)
      && PartContainers(cfg, rows, cs, now, done + {t}) == match Decide(cfg, rows[t], now) {
           case Keep => before
           case PauseIt => if n in cs then before[n := PausedContainer(cs[n])] else before
           case StopIt => before - {n}
         }
  {
    var name := ContainerName(t);
    var before := PartContainers(cfg, rows, cs, now, done);
    var after := PartContainers(cfg, rows, cs, now, done + {t});
    var claimed := match Decide(cfg, rows[t], now) {
      case Keep => before
      case PauseIt => if name in cs then before[name := PausedContainer(cs[name])] else before
      case StopIt => before - {name}
    };
    assert PartFate(cfg, rows, name, now, done) == Keep;
    assert PartFate(cfg, rows, name, now, done + {t}) == Decide(cfg, rows[t], now);
    forall n ensures SameAt(after, claimed, n) {
      if n != name {
        assert Owner(n) != Some(t);
        assert PartFate(cfg, rows, n, now, done + {t}) == PartFate(cfg, rows, n, now, done);
      }
    }
    MapsEqual(after, claimed);
  }

  lemma PartAll(cfg: Settings, w: World, now: int, done: set<Uuid>)
    requires forall t :: t in w.db.tenants && w.db.tenants[t].status in {RUNNING, PAUSED} ==> t in done
    ensures Part(cfg, w, now, done) == Swept(cfg, w, now)
  {
    var rows, cs := w.db.tenants, w.host.containers;
    assert PartRows(cfg, rows, now, done) == SweptRows(cfg, rows, now);
    forall n ensures PartFate(cfg, rows, n, now, done) == Fate(cfg, rows, n, now) {
    }
    assert PartContainers(cfg, rows, cs, now, done) == SweptContainers(cfg, rows, cs, now);
  }

  /** Dying between two rows, or before the second query, is a torn sweep. */
  lemma PartTorn(cfg: Settings, w: World, now: int, done: set<Uuid>)
    ensures Torn(cfg, w, w.(host := Part(cfg, w, now, done).host), now)
  {
    var host := Part(cfg, w, now, done).host;
    forall n ensures TornAt(cfg, w, host.containers, now, n) {
    }
  }

  /** So is dying at one more row, having completed the visited ones. */
  lemma PartIsTorn(cfg: Settings, w: World, now: int, done: set<Uuid>, t: Uuid, host: Host)
    requires t in w.db.tenants && t !in done
    requires
      var part := Part(cfg, w, now, done).host;
      match Decide(cfg, w.db.tenants[t], now) {
        case Keep => host == part
        case PauseIt => host in {part, PausedHost(part, t)}
        case StopIt => host in {part, HaltedHost(part, t), Stopped(part, t)}
      }
    ensures Torn(cfg, w, w.(host := host), now)
  {
    var rows, cs := w.db.tenants, w.host.containers;
    var part := Part(cfg, w, now, done).host;
    assert PartFate(cfg, rows, ContainerName(t), now, done) == Keep;
    assert SameAt(part.containers, cs, ContainerName(t));
    forall n ensures TornAt(cfg, w, host.containers, now, n) {
      if n != ContainerName(t) {
        assert SameAt(part.containers, host.containers, n);
      }
    }
  }

  /** A row the second pass selects: PAUSED from the start and not visited, or just paused and not due to stop. */
  ghost predicate SecondVisit(cfg: Settings, w: World, now: int, first: set<Uuid>, t: Uuid) {
    && t in w.db.tenants
    && if t in first then !(LastActive(w.db.tenants[t]) < now - cfg.idleStop) else w.db.tenants[t].status == PAUSED
  }

  lemma PausedIsKept(cfg: Settings, w: World, now: int, first: set<Uuid>, t: Uuid)
    requires forall t :: t in first <==> t in w.db.tenants && w.db.tenants[t].status == RUNNING
    requires t in w.db.tenants && Part(cfg, w, now, first).db.tenants[t].status == PAUSED
    ensures SecondVisit(cfg, w, now, first, t)
  {
  }

  /** Visiting a row that is kept changes nothing, whether it was visited before or not. */
  lemma VisitKept(cfg: Settings, w: World, now: int, first: set<Uuid>, done: set<Uuid>, t: Uuid)
    requires first <= done && SecondVisit(cfg, w, now, first, t)
    requires !(LastActive(w.db.tenants[t]) < now - cfg.idleStop)
    ensures Part(cfg, w, now, done + {t}) == Part(cfg, w, now, done)
  {
    if t in done {
      assert done + {t} == done;
    } else {
      PartStep(cfg, w, now, done, t);
      var part := Part(cfg, w, now, done);
      assert part.db.tenants[t := part.db.tenants[t]] == part.db.tenants;
    }
  }

  /** A row not visited yet is as it was; visited or not, it was last active when it was. */
  lemma PartRowAt(cfg: Settings, w: World, now: int, done: set<Uuid>, t: Uuid)
    requires t in w.db.tenants
    ensures t in Part(cfg, w, now, done).db.tenants
    ensures LastActive(Part(cfg, w, now, done).db.tenants[t]) == LastActive(w.db.tenants[t])
    ensures t !in done ==> Part(cfg, w, now, done).db.tenants[t] == w.db.tenants[t]
  {
  }

  lemma KeepIdle(cfg: Settings, w: World, now: int, done: set<Uuid>, t: Uuid)
    requires t in w.db.tenants && t !in done && Decide(cfg, w.db.tenants[t], now) == Keep
    ensures Part(cfg, w, now, done + {t}) == Part(cfg, w, now, done)
  {
    hide PartRows, PartContainers;
    PartStep(cfg, w, now, done, t);
    PartRowAt(cfg, w, now, done, t);
    var part := Part(cfg, w, now, done);
    assert part.db.tenants[t := part.db.tenants[t]] == part.db.tenants;
  }

  /** The second query finds every row that was PAUSED from the start, and nothing the first pass would stop. */
  lemma SecondSelects(cfg: Settings, w: World, now: int, first: set<Uuid>, rows: seq<Uuid>)
    requires forall t :: t in first <==> t in w.db.tenants && w.db.tenants[t].status == RUNNING
    requires
      var seen := Part(cfg, w, now, first).db.tenants;
      forall t :: t in rows <==> t in seen && seen[t].status == PAUSED
    ensures forall k :: 0 <= k < |rows| ==> SecondVisit(cfg, w, now, first, rows[k])
    ensures forall t :: t in w.db.tenants && w.db.tenants[t].status == PAUSED ==> t in rows
  {
    forall k | 0 <= k < |rows| ensures SecondVisit(cfg, w, now, first, rows[k]) {
      assert rows[k] in rows;
      PausedIsKept(cfg, w, now, first, rows[k]);
    }
    forall t | t in w.db.tenants && w.db.tenants[t].status == PAUSED ensures t in rows {
      PartRowAt(cfg, w, now, first, t);
    }
  }

  class HibernationScheduler {
    const orch: DockerOrchestrator
    const cfg: Settings
    var running: bool

    constructor (orch: DockerOrchestrator, cfg: Settings)
      ensures this.orch == orch && this.cfg == cfg
    {
      this.orch, this.cfg := orch, cfg;
      this.running := false;
    }

    ghost function Sees(session: Session, drawn: nat): World
      reads session, orch
    {
      World(session.db, orch.View(), drawn)
    }

    ghost function Committed(session: Session, drawn: nat): World
      reads session, orch
    {
      World(session.committed, orch.View(), drawn)
    }

    /** Stops one idle tenant: container first, row second. */
    method StopIdle(session: Session, t: Uuid, now: int, ghost w: World, ghost done: set<Uuid>) returns (r: Result<()>)
      requires t in w.db.tenants && t !in done && Decide(cfg, w.db.tenants[t], now) == StopIt
      requires Sees(session, w.drawn) == Part(cfg, w, now, done)
      modifies session`db, orch
      ensures r.Ok? ==> Sees(session, w.drawn) == Part(cfg, w, now, done + {t})
      ensures r.Err? ==> Torn(cfg, w, w.(host := orch.View()), now)
      ensures orch.reliable ==> r.Ok?
    {
      hide Torn, Stopped, HaltedHost, PartRows, PartContainers;
      PartRowAt(cfg, w, now, done, t);
      PartStep(cfg, w, now, done, t);
      r := orch.StopContainer(t);
      if r.Err? {
        PartIsTorn(cfg, w, now, done, t, orch.View());
      } else {
        session.db := session.db.(tenants := session.db.tenants[t := RowStopped(session.db.tenants[t])]);
      }
    }

    method PauseIdle(session: Session, t: Uuid, now: int, ghost w: World, ghost done: set<Uuid>) returns (r: Result<()>)
      requires t in w.db.tenants && t !in done && Decide(cfg, w.db.tenants[t], now) == PauseIt
      requires Sees(session, w.drawn) == Part(cfg, w, now, done)
      modifies session`db, orch
      ensures r.Ok? ==> Sees(session, w.drawn) == Part(cfg, w, now, done + {t})
      ensures r.Err? ==> Torn(cfg, w, w.(host := orch.View()), now)
      ensures orch.reliable ==> r.Ok?
    {
      hide Torn, PausedHost, PartRows, PartContainers;
      PartRowAt(cfg, w, now, done, t);
      PartStep(cfg, w, now, done, t);
      r := orch.PauseContainer(t);
      if r.Err? {
        PartIsTorn(cfg, w, now, done, t, orch.View());
      } else {
        session.db := session.db.(tenants := session.db.tenants[t := RowPaused(session.db.tenants[t])]);
      }
    }

    /** The first pass: stop or pause what is RUNNING. */
    method SweepRunning(session: Session, now: int, ghost w: World) returns (r: Result<()>, ghost done: set<Uuid>)
      requires w == Sees(session, w.drawn)
      modifies session`db, orch
      ensures r.Ok? ==> Sees(session, w.drawn) == Part(cfg, w, now, done)
      ensures r.Ok? ==> forall t :: t in done <==> t in w.db.tenants && w.db.tenants[t].status == RUNNING
      ensures r.Err? ==> Torn(cfg, w, w.(host := orch.View()), now)
      ensures orch.reliable ==> r.Ok?
    {
      hide Torn, Part, LastActive;
      done := {};
      var rows := session.SelectByStatus(RUNNING);
      PartNone(cfg, w, now);
      for i := 0 to |rows|
        invariant done == set k | 0 <= k < i :: rows[k]
        invariant Sees(session, w.drawn) == Part(cfg, w, now, done)
      {
        var t := rows[i];
        assert t in rows;
        PartRowAt(cfg, w, now, done, t);
        var last := LastActive(session.db.tenants[t]);
        r := Ok(());
        if last < now - cfg.idleStop {
          r := StopIdle(session, t, now, w, done);
        } else if last < now - cfg.idlePause {
          r := PauseIdle(session, t, now, w, done);
        } else {
          KeepIdle(cfg, w, now, done, t);
        }
        if r.Err? {
          return r, done;
        }
        done := done + {t};
      }
      return Ok(()), done;
    }

    /** The second pass sees the rows the first has just paused, and leaves them alone. */
    method SweepPaused(session: Session, now: int, ghost w: World, ghost first: set<Uuid>)
      returns (r: Result<()>, ghost done: set<Uuid>)
      requires forall t :: t in first <==> t in w.db.tenants && w.db.tenants[t].status == RUNNING
      requires Sees(session, w.drawn) == Part(cfg, w, now, first)
      modifies session`db, orch
      ensures r.Ok? ==> Sees(session, w.drawn) == Part(cfg, w, now, done)
      ensures r.Ok? ==> forall t :: t in w.db.tenants && w.db.tenants[t].status in {RUNNING, PAUSED} ==> t in done
      ensures r.Err? ==> Torn(cfg, w, w.(host := orch.View()), now)
      ensures orch.reliable && session.reliable ==> r.Ok?
    {
      hide Torn, Part, LastActive;
      done := first;
      var ok := session.Await();
      if !ok {
        PartTorn(cfg, w, now, first);
        return Err(DatabaseError), done;
      }
      var rows := session.SelectByStatus(PAUSED);
      SecondSelects(cfg, w, now, first, rows);
      for i := 0 to |rows|
        invariant done == first + set k | 0 <= k < i :: rows[k]
        invariant Sees(session, w.drawn) == Part(cfg, w, now, done)
      {
        var t := rows[i];
        PartRowAt(cfg, w, now, done, t);
        var last := LastActive(session.db.tenants[t]);
        if last < now - cfg.idleStop {
          r := StopIdle(session, t, now, w, done);
          if r.Err? {
            return r, done;
          }
        } else {
          VisitKept(cfg, w, now, first, done, t);
        }
        done := done + {t};
      }
      return Ok(()), done;
    }

    /** One sweep in a session of its own. */
    method CheckIdleTenants(session: Session, now: int, ghost drawn: nat) returns (r: Result<()>)
      modifies session, orch
      ensures r.Ok? ==> Committed(session, drawn) == Swept(cfg, old(Committed(session, drawn)), now)
      ensures r.Err? ==> Torn(cfg, old(Committed(session, drawn)), Committed(session, drawn), now)
      ensures orch.reliable && session.reliable ==> r.Ok?
    {
      session.Rollback();
      ghost var w := Sees(session, drawn);
      var ok := session.Await();
      if !ok {
        PartNone(cfg, w, now);
        assert forall n :: TornAt(cfg, w, w.host.containers, now, n);
        return Err(DatabaseError);
      }
      ghost var first: set<Uuid>, done: set<Uuid>;
      r, first := SweepRunning(session, now, w);
      if r.Err? {
        return r;
      }
      r, done := SweepPaused(session, now, w, first);
      if r.Err? {
        return r;
      }
      PartAll(cfg, w, now, done);
      SweptIsTorn(cfg, w, now);
      r := session.Commit();
    }

    /**
     The scheduler loop until it is told to stop: errors are logged and the next
     round goes ahead. Whatever failed on the way, a last round that completes
     leaves what that one sweep alone would have left.
     */
    method Run(session: Session, times: seq<int>, ghost drawn: nat) returns (completed: bool)
      modifies this`running, session, orch
      ensures !running
      ensures orch.reliable && session.reliable && times != [] ==> completed
      ensures Nondecreasing(times) && completed ==>
        && times != []
        && Committed(session, drawn) == Swept(cfg, old(Committed(session, drawn)), times[|times| - 1])
      ensures Nondecreasing(times) ==> forall later :: (times == [] || times[|times| - 1] <= later) ==>
        Swept(cfg, Committed(session, drawn), later) == Swept(cfg, old(Committed(session, drawn)), later)
    {
      hide Swept, Torn;
      running := true;
      completed := false;
      var i := 0;
      ghost var w := Committed(session, drawn);
      while running
        invariant 0 <= i <= |times|
        invariant running || i == |times|
        invariant completed ==> i > 0
        invariant orch.reliable && session.reliable && i > 0 ==> completed
        invariant Nondecreasing(times) && completed ==> Committed(session, drawn) == Swept(cfg, w, times[i - 1])
        invariant Nondecreasing(times) ==> forall later :: (i == 0 || times[i - 1] <= later) ==>
          Swept(cfg, Committed(session, drawn), later) == Swept(cfg, w, later)
        decreases running, |times| - i
      {
        if i == |times| {
          running := false;
        } else {
          ghost var before := Committed(session, drawn);
          var r := CheckIdleTenants(session, times[i], drawn);
          completed := r.Ok?;
          if Nondecreasing(times) {
            forall later | times[i] <= later
              ensures Swept(cfg, Committed(session, drawn), later) == Swept(cfg, w, later)
            {
              if r.Ok? {
                SweepAbsorbs(cfg, before, times[i], later);
              } else {
                TornSweepRecovers(cfg, before, Committed(session, drawn), times[i], later);
              }
            }
          }
          i := i + 1;
        }
      }
    }
  }
}
