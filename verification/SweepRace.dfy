/**
 A hibernation sweep in the middle of concurrent wakes of one tenant. The sweep
 is cut at its awaits as well: it reads the rows and acts on Docker in one
 piece, writes what it has changed when it queries again or commits, and
 writes it over whatever row is committed by then.
 */
module SweepRace {
  import opened Prelude
  import opened Naming
  import opened Docker
  import opened Database
  import opened Provider
  import opened Tenants
  import opened Hibernation
  import opened Slices
  import W = WakeRace

  /**
   Where the sweep is: `loaded` tells that its first query returned the row, `d`
   what it has done to the container and will do to the row, and `hadId` that the
   row it read recorded a container, without which it will not clear the id.
   */
  datatype Sweep =
    | Due
    | Looked(loaded: bool, d: Decision, hadId: bool)
    | Flushed(loaded: bool, d: Decision, hadId: bool)
    | Judged(d: Decision, hadId: bool)
    | Done

  datatype Both = Both(race: W.Race, sweep: Sweep)

  datatype Step = Wake(step: W.Step) | Look | Flush | LookAgain | Publish

  /** The sweep as a holder of the row lock, after all the calls. */
  function Sweeper(s: Both): nat {
    |s.race.calls|
  }

  /** Activity too late for the sweep to count as idle. */
  predicate Recent(cfg: Settings, now: int, at: int) {
    now <= at + cfg.idlePause && now <= at + cfg.idleStop
  }

  /** A wake acts within the thresholds of the sweep; writing a change needs the row lock. */
  predicate Enabled(cfg: Settings, now: int, s: Both, step: Step) {
    match step
    case Wake(st) => W.Enabled(s.race, st) && (st.Update? ==> Recent(cfg, now, st.now))
    case Look => s.sweep.Due?
    case Flush => s.sweep.Looked? && (s.sweep.d == Keep || s.race.lock.None?)
    case LookAgain => s.sweep.Flushed?
    case Publish => s.sweep.Judged? && (s.sweep.d == Keep || s.race.lock in {None, Some(Sweeper(s))})
  }

  function Acted(h: Host, t: Uuid, d: Decision): Host {
    match d
    case Keep => h
    case PauseIt => PausedHost(h, t)
    case StopIt => Stopped(h, t)
  }

  /** The columns the sweep writes, over the committed row. */
  function Changed(row: TenantRow, d: Decision, hadId: bool): TenantRow {
    match d
    case Keep => row
    case PauseIt => RowPaused(row)
    case StopIt => row.(status := STOPPED, containerId := if hadId then None else row.containerId)
  }

  function Take(cfg: Settings, now: int, t: Uuid, s: Both, step: Step): Both
    requires Enabled(cfg, now, s, step)
  {
    match step
    case Wake(st) => s.(race := W.Take(t, s.race, st))
    case Look =>
      var row := s.race.row;
      var d := if row.status == RUNNING then Decide(cfg, row, now) else Keep;
      Both(s.race.(host := Acted(s.race.host, t, d)), Looked(row.status == RUNNING, d, row.containerId.Some?))
    case Flush =>
      var lock := if s.sweep.d == Keep then s.race.lock else Some(Sweeper(s));
      Both(s.race.(lock := lock), Flushed(s.sweep.loaded, s.sweep.d, s.sweep.hadId))
    case LookAgain =>
      // A row loaded by the first query and kept keeps its old values in the session.
      var row := s.race.row;
      if s.sweep.d == Keep && !s.sweep.loaded && row.status == PAUSED then
        var d := Decide(cfg, row, now);
        Both(s.race.(host := Acted(s.race.host, t, d)), Judged(d, row.containerId.Some?))
      else s.(sweep := Judged(s.sweep.d, s.sweep.hadId))
    case Publish =>
      var lock := if s.sweep.d == Keep then s.race.lock else None;
      Both(s.race.(row := Changed(s.race.row, s.sweep.d, s.sweep.hadId), lock := lock), Done)
  }

  predicate Legal(cfg: Settings, now: int, t: Uuid, s: Both, steps: seq<Step>)
    decreases |steps|
  {
    steps != [] ==>
      Enabled(cfg, now, s, steps[0]) && Legal(cfg, now, t, Take(cfg, now, t, s, steps[0]), steps[1..])
  }

  function Run(cfg: Settings, now: int, t: Uuid, s: Both, steps: seq<Step>): Both
    requires Legal(cfg, now, t, s, steps)
    decreases |steps|
  {
    if steps == [] then s else Run(cfg, now, t, Take(cfg, now, t, s, steps[0]), steps[1..])
  }

  /** The sweep is done and every wake has succeeded. */
  ghost predicate Over(s: Both) {
    s.sweep.Done? && forall p :: 0 <= p < |s.race.calls| ==> s.race.calls[p].Returned?
  }

  /** The promise: where nothing fails, row and container agree in the end. */
  ghost predicate AlwaysAgrees(cfg: Settings, now: int, t: Uuid, s0: W.Race) {
    forall steps {:trigger Legal(cfg, now, t, Both(s0, Due), steps)} ::
      Legal(cfg, now, t, Both(s0, Due), steps) && Over(Run(cfg, now, t, Both(s0, Due), steps)) ==>
        W.Agrees(t, Run(cfg, now, t, Both(s0, Due), steps).race)
  }

  /** Exactly when it is kept: there is no wake, or the sweep has nothing to do. */
  lemma AgreesExactly(cfg: Settings, now: int, t: Uuid, s0: W.Race)
    requires W.Start(t, s0)
    ensures AlwaysAgrees(cfg, now, t, s0) <==> s0.calls == [] || Decide(cfg, s0.row, now) == Keep
  {
    if s0.calls == [] || Decide(cfg, s0.row, now) == Keep {
      forall steps | Legal(cfg, now, t, Both(s0, Due), steps) && Over(Run(cfg, now, t, Both(s0, Due), steps))
        ensures W.Agrees(t, Run(cfg, now, t, Both(s0, Due), steps).race)
      {
        if s0.calls == [] {
          LoneSweep(cfg, now, t, s0, Both(s0, Due), steps);
          LoneSweepAgrees(cfg, now, t, s0);
        } else {
          IdleSweepAgrees(cfg, now, t, s0, steps);
        }
      }
    } else {
      var steps := OverwrittenWakes(cfg, now, t, s0);
    }
  }

  // --- A sweep that has nothing to do ---

  ghost predicate Fresh(cfg: Settings, now: int, s: Both) {
    && Decide(cfg, s.race.row, now) == Keep
    && (forall p :: 0 <= p < |s.race.calls| && s.race.calls[p].Holding? ==>
          Decide(cfg, s.race.calls[p].pending, now) == Keep)
    && (s.sweep.Looked? || s.sweep.Flushed? || s.sweep.Judged? ==> s.sweep.d == Keep)
  }

  lemma FreshStep(cfg: Settings, now: int, t: Uuid, s: Both, step: Step)
    requires Fresh(cfg, now, s) && Enabled(cfg, now, s, step)
    ensures Fresh(cfg, now, Take(cfg, now, t, s, step))
    ensures !step.Wake? ==> Take(cfg, now, t, s, step).race == s.race
  {
    hide Started, HalfStarted, StateOf, Unpaused, W.KeyBlocked;
  }

  lemma {:induction false} FreshRun(cfg: Settings, now: int, t: Uuid, s0: W.Race, s: Both, steps: seq<Step>)
    requires W.Start(t, s0) && W.RaceInv(t, s0, s.race) && Fresh(cfg, now, s) && Legal(cfg, now, t, s, steps)
    ensures W.RaceInv(t, s0, Run(cfg, now, t, s, steps).race)
    decreases |steps|
  {
    hide W.Start, W.RaceInv, W.Take, Fresh;
    if steps != [] {
      FreshStep(cfg, now, t, s, steps[0]);
      if steps[0].Wake? {
        W.StepKeeps(t, s0, s.race, steps[0].step);
      }
      FreshRun(cfg, now, t, s0, Take(cfg, now, t, s, steps[0]), steps[1..]);
    }
  }

  lemma IdleSweepAgrees(cfg: Settings, now: int, t: Uuid, s0: W.Race, steps: seq<Step>)
    requires W.Start(t, s0) && s0.calls != [] && Decide(cfg, s0.row, now) == Keep
    requires Legal(cfg, now, t, Both(s0, Due), steps) && Over(Run(cfg, now, t, Both(s0, Due), steps))
    ensures W.Agrees(t, Run(cfg, now, t, Both(s0, Due), steps).race)
  {
    hide Legal, Run;
    W.StartHolds(t, s0);
    FreshRun(cfg, now, t, s0, Both(s0, Due), steps);
    var s := Run(cfg, now, t, Both(s0, Due), steps).race;
    assert s.calls[0].Returned?;
    W.OneSuccessSettles(t, s0, s);
  }

  // --- A sweep by itself ---

  /** What the sweep has done to the tenant by the time it has come this far. */
  ghost predicate LoneInv(cfg: Settings, now: int, t: Uuid, s0: W.Race, s: Both) {
    var d := Decide(cfg, s0.row, now);
    var first := if s0.row.status == RUNNING then d else Keep;
    var hadId := s0.row.containerId.Some?;
    match s.sweep
    case Due => s.race == s0
    case Looked(loaded, e, id) =>
      && loaded == (s0.row.status == RUNNING) && e == first && id == hadId
      && s.race == s0.(host := Acted(s0.host, t, e))
    case Flushed(loaded, e, id) =>
      && loaded == (s0.row.status == RUNNING) && e == first && id == hadId
      && s.race == s0.(host := Acted(s0.host, t, e), lock := s.race.lock)
      && s.race.lock == if e == Keep then None else Some(0)
    case Judged(e, id) =>
      && e == d && id == hadId
      && s.race == s0.(host := Acted(s0.host, t, e), lock := s.race.lock) && s.race.lock in {None, Some(0)}
      && (e == Keep ==> s.race.lock.None?)
    case Done => s.race == s0.(row := SweptRow(s0.row, d), host := Acted(s0.host, t, d))
  }

  /** Without wakes the sweep does to row and container what was decided for the row. */
  lemma {:induction false} LoneSweep(cfg: Settings, now: int, t: Uuid, s0: W.Race, s: Both, steps: seq<Step>)
    requires s0.calls == [] && s0.lock.None? && LoneInv(cfg, now, t, s0, s) && Legal(cfg, now, t, s, steps)
    ensures LoneInv(cfg, now, t, s0, Run(cfg, now, t, s, steps))
    decreases |steps|
  {
    hide Acted, Decide;
    if steps != [] {
      LoneStep(cfg, now, t, s0, s, steps[0]);
      LoneSweep(cfg, now, t, s0, Take(cfg, now, t, s, steps[0]), steps[1..]);
    }
  }

  lemma LoneStep(cfg: Settings, now: int, t: Uuid, s0: W.Race, s: Both, step: Step)
    requires s0.calls == [] && s0.lock.None? && LoneInv(cfg, now, t, s0, s) && Enabled(cfg, now, s, step)
    ensures LoneInv(cfg, now, t, s0, Take(cfg, now, t, s, step))
  {
    hide PausedHost, Stopped;
  }

  lemma LoneSweepAgrees(cfg: Settings, now: int, t: Uuid, s0: W.Race)
    requires W.Start(t, s0)
    ensures
      var d := Decide(cfg, s0.row, now);
      W.Agrees(t, s0.(row := SweptRow(s0.row, d), host := Acted(s0.host, t, d)))
  {
  }

  /** So the steps refine the whole operation: by itself it is the sweep of the whole system, seen at one tenant. */
  lemma LoneIsSweep(cfg: Settings, now: int, t: Uuid, w: World, steps: seq<Step>)
    requires t in w.db.tenants
    requires
      var s := Both(W.Race(w.db.tenants[t], t in w.db.deks, w.host, None, []), Due);
      Legal(cfg, now, t, s, steps) && Run(cfg, now, t, s, steps).sweep.Done?
    ensures
      var s := Both(W.Race(w.db.tenants[t], t in w.db.deks, w.host, None, []), Due);
      var end := Run(cfg, now, t, s, steps).race;
      var swept := Swept(cfg, w, now);
      && t in swept.db.tenants && end.row == swept.db.tenants[t]
      && HoldingsOf(end.host, t) == HoldingsOf(swept.host, t)
  {
    hide Legal, Run, Swept;
    var s0 := W.Race(w.db.tenants[t], t in w.db.deks, w.host, None, []);
    LoneSweep(cfg, now, t, s0, Both(s0, Due), steps);
    SweepActsOnSlice(cfg, w, now, t);
    ActedHoldings(w.host, t, Decide(cfg, s0.row, now));
    assert SliceOf(Swept(cfg, w, now), t).row == Lookup(Swept(cfg, w, now).db.tenants, t);
  }

  lemma ActedHoldings(h: Host, t: Uuid, d: Decision)
    ensures HoldingsOf(Acted(h, t, d), t) == HoldingsOf(h, t).(container := match d {
      case Keep => HoldingsOf(h, t).container
      case PauseIt =>
        if HoldingsOf(h, t).container.Some? then Some(PausedContainer(HoldingsOf(h, t).container.value)) else None
      case StopIt => None
    })
  {
    assert InitName(t) != ContainerName(t);
  }

  // --- Wakes that the sweep writes over ---

  /** Any time a wake may act. */
  function SomeTime(cfg: Settings, now: int): int {
    if cfg.idlePause < cfg.idleStop then now - cfg.idlePause else now - cfg.idleStop
  }

  predicate Timely(cfg: Settings, now: int, steps: seq<W.Step>) {
    forall i :: 0 <= i < |steps| && steps[i].Update? ==> Recent(cfg, now, steps[i].now)
  }

  function Lifted(steps: seq<W.Step>): seq<Step> {
    seq(|steps|, i requires 0 <= i < |steps| => Wake(steps[i]))
  }

  /** The wakes go on while the sweep waits. */
  lemma {:induction false} WakesMeanwhile(cfg: Settings, now: int, t: Uuid, s: Both, steps: seq<W.Step>)
    requires W.Legal(t, s.race, steps) && Timely(cfg, now, steps)
    ensures Legal(cfg, now, t, s, Lifted(steps))
    ensures Run(cfg, now, t, s, Lifted(steps)) == s.(race := W.Run(t, s.race, steps))
    decreases |steps|
  {
    hide W.Take, W.Enabled;
    if steps != [] {
      var s' := s.(race := W.Take(t, s.race, steps[0]));
      WakesMeanwhile(cfg, now, t, s', steps[1..]);
      assert Lifted(steps)[1..] == Lifted(steps[1..]);
      assert Lifted(steps)[0] == Wake(steps[0]);
    }
  }

  lemma {:induction false} RunConcat(cfg: Settings, now: int, t: Uuid, s: Both, a: seq<Step>, b: seq<Step>)
    requires Legal(cfg, now, t, s, a) && Legal(cfg, now, t, Run(cfg, now, t, s, a), b)
    ensures Legal(cfg, now, t, s, a + b)
    ensures Run(cfg, now, t, s, a + b) == Run(cfg, now, t, Run(cfg, now, t, s, a), b)
    decreases |a|
  {
    hide Take, Enabled;
    if a == [] {
      assert a + b == b;
    } else {
      assert (a + b)[0] == a[0] && (a + b)[1..] == a[1..] + b;
      RunConcat(cfg, now, t, Take(cfg, now, t, s, a[0]), a[1..], b);
    }
  }

  /** A container that runs, and a row that says so unless a wake is still to say it. */
  ghost predicate Waking(t: Uuid, s: W.Race, k: nat) {
    && k <= |s.calls| && s.lock.None?
    && (forall p :: 0 <= p < k ==> s.calls[p].Returned?)
    && (forall p :: k <= p < |s.calls| ==> s.calls[p].Idle?)
    && (W.Up(t, s.host) ==> s.row.status == RUNNING)
    && (k == |s.calls| ==> W.Up(t, s.host))
  }

  /** One call from beginning to end. */
  lemma OneWakes(cfg: Settings, now: int, t: Uuid, s: W.Race, p: nat) returns (steps: seq<W.Step>)
    requires p < |s.calls| && Waking(t, s, p)
    ensures W.Legal(t, s, steps) && Timely(cfg, now, steps)
    ensures Waking(t, W.Run(t, s, steps), p + 1) && |W.Run(t, s, steps).calls| == |s.calls|
  {
    hide W.Legal, W.Run, W.Up;
    var at := SomeTime(cfg, now);
    steps := OneRuns(cfg, now, t, s, p);
    var up := W.Run(t, s, steps);
    W.OneStep(t, s, steps, W.Update(p, at));
    W.OneStep(t, s, steps + [W.Update(p, at)], W.Commit(p));
    steps := steps + [W.Update(p, at)] + [W.Commit(p)];
  }

  /** The call as far as its container running, and what it has yet to write. */
  lemma OneRuns(cfg: Settings, now: int, t: Uuid, s: W.Race, p: nat) returns (steps: seq<W.Step>)
    requires p < |s.calls| && Waking(t, s, p)
    ensures W.Legal(t, s, steps) && Timely(cfg, now, steps)
    ensures
      var up := W.Run(t, s, steps);
      && |up.calls| == |s.calls|
      && up == s.(host := up.host, calls := s.calls[p := up.calls[p]]) && W.Up(t, up.host)
      && (up.calls[p] == W.Checked(W.Waking) || up.calls[p].Launched?
          || (up.calls[p] == W.Checked(W.Touching) && s.row.status == RUNNING))
  {
    hide W.Legal, W.Run, Started, W.ReadySteps;
    if Awake(s.host, t) {
      W.Alone(t, s, W.Check(p));
      steps := [W.Check(p)];
    } else {
      W.GetsReady(t, s, p);
      W.OneStep(t, s, W.ReadySteps(s.keyed, p), W.Launch(p, map[]));
      StartRuns(s.host, t);
      ReadyIsTimely(cfg, now, s.keyed, p);
      steps := W.ReadySteps(s.keyed, p) + [W.Launch(p, map[])];
    }
  }

  lemma StartRuns(h: Host, t: Uuid)
    ensures W.Up(t, Started(h, t, map[]))
  {
  }

  lemma ReadyIsTimely(cfg: Settings, now: int, keyed: bool, p: nat)
    ensures Timely(cfg, now, W.ReadySteps(keyed, p))
  {
  }

  /** All the calls, one after another. */
  lemma {:induction false} AllWake(cfg: Settings, now: int, t: Uuid, s: W.Race, k: nat) returns (steps: seq<W.Step>)
    requires Waking(t, s, k)
    ensures W.Legal(t, s, steps) && Timely(cfg, now, steps)
    ensures Waking(t, W.Run(t, s, steps), |s.calls|) && |W.Run(t, s, steps).calls| == |s.calls|
    decreases |s.calls| - k
  {
    hide Waking, W.Take, W.Enabled;
    if k >= |s.calls| {
      assert k == |s.calls| by { WakingBound(t, s, k); }
      steps := [];
    } else {
      var one := OneWakes(cfg, now, t, s, k);
      var rest := AllWake(cfg, now, t, W.Run(t, s, one), k + 1);
      W.RunConcat(t, s, one, rest);
      steps := one + rest;
    }
  }

  lemma WakingBound(t: Uuid, s: W.Race, k: nat)
    requires Waking(t, s, k)
    ensures k <= |s.calls|
  {
  }

  /** The sweep up to its last act on Docker, and from there to the end. */
  function Before(row: TenantRow): seq<Step> {
    if row.status == RUNNING then [Look] else [Look, Flush, LookAgain]
  }

  function Afterwards(row: TenantRow): seq<Step> {
    if row.status == RUNNING then [Flush, LookAgain, Publish] else [Publish]
  }

  lemma SweepActs(cfg: Settings, now: int, t: Uuid, s0: W.Race)
    requires W.Start(t, s0) && Decide(cfg, s0.row, now) != Keep
    ensures
      var d := Decide(cfg, s0.row, now);
      var s := Both(s0, Due);
      && Legal(cfg, now, t, s, Before(s0.row))
      && Run(cfg, now, t, s, Before(s0.row)) == Both(
           s0.(host := Acted(s0.host, t, d)),
           if s0.row.status == RUNNING then Looked(true, d, s0.row.containerId.Some?)
           else Judged(d, s0.row.containerId.Some?))
      && !W.Up(t, Acted(s0.host, t, d))
  {
    assert [Look][1..] == [];
    assert [Look, Flush, LookAgain][1..] == [Flush, LookAgain] && [Flush, LookAgain][1..] == [LookAgain];
    assert [LookAgain][1..] == [];
    ActedHoldings(s0.host, t, Decide(cfg, s0.row, now));
  }

  lemma SweepWrites(cfg: Settings, now: int, t: Uuid, s: Both, row: TenantRow)
    requires s.race.lock.None?
    requires
      if row.status == RUNNING then s.sweep.Looked? && s.sweep.d != Keep
      else s.sweep.Judged? && s.sweep.d != Keep
    ensures
      && Legal(cfg, now, t, s, Afterwards(row))
      && Run(cfg, now, t, s, Afterwards(row))
         == Both(s.race.(row := Changed(s.race.row, s.sweep.d, s.sweep.hadId)), Done)
  {
    assert [Publish][1..] == [];
    assert [Flush, LookAgain, Publish][1..] == [LookAgain, Publish] && [LookAgain, Publish][1..] == [Publish];
  }

  /**
   Otherwise: the sweep pauses or stops the container, the wakes make it run
   again and commit, and the sweep's row, written last, hides that. The container
   runs and the row says PAUSED or STOPPED, though nothing has failed.
   */
  lemma OverwrittenWakes(cfg: Settings, now: int, t: Uuid, s0: W.Race) returns (steps: seq<Step>)
    requires W.Start(t, s0) && s0.calls != [] && Decide(cfg, s0.row, now) != Keep
    ensures Legal(cfg, now, t, Both(s0, Due), steps)
    ensures
      var end := Run(cfg, now, t, Both(s0, Due), steps);
      && Over(end) && W.Up(t, end.race.host)
      && end.race.row.status == (if Decide(cfg, s0.row, now) == PauseIt then PAUSED else STOPPED)
      && !W.Agrees(t, end.race)
    ensures !AlwaysAgrees(cfg, now, t, s0)
  {
    hide Legal, Run, Before, Afterwards, Acted, W.Legal, W.Run, Decide;
    SweepActs(cfg, now, t, s0);
    var acted := Run(cfg, now, t, Both(s0, Due), Before(s0.row));
    var wakes := AllWake(cfg, now, t, acted.race, 0);
    WakesMeanwhile(cfg, now, t, acted, wakes);
    RunConcat(cfg, now, t, Both(s0, Due), Before(s0.row), Lifted(wakes));
    var woken := Run(cfg, now, t, acted, Lifted(wakes));
    SweepWrites(cfg, now, t, woken, s0.row);
    RunConcat(cfg, now, t, Both(s0, Due), Before(s0.row) + Lifted(wakes), Afterwards(s0.row));
    steps := Before(s0.row) + Lifted(wakes) + Afterwards(s0.row);
  }
}
