/**
 The Docker host and the orchestrator that drives it. `Host` is the state
 Docker and the file system hold; the functions on it say what one completed
 orchestrator call does, and the class carries the calls out one daemon
 request at a time, any of which may fail.
 */
module Docker {
  import opened Prelude
  import opened Naming
  import opened TenantConfig

  const STATE_TARGET: string := "/home/node/.openclaw"
  const WORKSPACE_TARGET: string := "/home/node/.openclaw/workspace"

  datatype RawStatus = Created | Running | Paused | Restarting | Removing | Exited | Dead

  datatype ContainerState = StateRunning | StatePaused | StateStopped | StateError | StateNotFound

  /** A container, the directories mounted into it and its address on each network. */
  datatype Container = Container(
    id: nat,
    status: RawStatus,
    env: map<string, string>,
    mounts: map<string, string>,
    nets: map<string, Option<nat>>)

  /** A tenant directory, and the openclaw.json inside it once onboarding has written one. */
  datatype Dir = Dir(config: Option<Json>)

  /** `next` is the fresh supply of container ids, network ids and addresses. */
  datatype Host = Host(
    containers: map<string, Container>,
    networks: map<string, nat>,
    dirs: map<string, Dir>,
    next: nat)

  // --- What completed calls do ---

  function DirsCreated(h: Host, t: Uuid): Host {
    if TenantDir(t) in h.dirs then h else h.(dirs := h.dirs[TenantDir(t) := Dir(None)])
  }

  function NetworkCreated(h: Host, t: Uuid): Host {
    if NetworkName(t) in h.networks then h
    else h.(networks := h.networks[NetworkName(t) := h.next], next := h.next + 1)
  }

  /** The bind mounts of a container whose tenant directory is `base`. */
  function Mounts(base: string): map<string, string> {
    map[STATE_TARGET := base + "/state", WORKSPACE_TARGET := base + "/workspace"]
  }

  function NewContainer(id: nat, t: Uuid, env: map<string, string>): Container {
    Container(id, Running, env, Mounts(TenantDir(t)), map[NetworkName(t) := Some(id)])
  }

  predicate Awake(h: Host, t: Uuid) {
    ContainerName(t) in h.containers && h.containers[ContainerName(t)].status in {Running, Paused}
  }

  function WithStatus(h: Host, t: Uuid, status: RawStatus): Host
    requires ContainerName(t) in h.containers
  {
    h.(containers := h.containers[ContainerName(t) := h.containers[ContainerName(t)].(status := status)])
  }

  /** A running or paused container is kept; anything else is replaced by a new one. */
  function Started(h: Host, t: Uuid, env: map<string, string>): (h': Host)
    ensures ContainerName(t) in h'.containers
  {
    if Awake(h, t) then WithStatus(DirsCreated(h, t), t, Running)
    else
      var ready := NetworkCreated(DirsCreated(h, t), t);
      ready.(containers := ready.containers[ContainerName(t) := NewContainer(ready.next, t, env)],
             next := ready.next + 1)
  }

  function Stopped(h: Host, t: Uuid): Host {
    h.(containers := h.containers - {ContainerName(t)})
  }

  function PausedContainer(c: Container): Container {
    if c.status == Running then c.(status := Paused) else c
  }

  function PausedHost(h: Host, t: Uuid): Host {
    if ContainerName(t) in h.containers
    then h.(containers := h.containers[ContainerName(t) := PausedContainer(h.containers[ContainerName(t)])])
    else h
  }

  function Unpaused(h: Host, t: Uuid): Host {
    if ContainerName(t) in h.containers && h.containers[ContainerName(t)].status == Paused
    then WithStatus(h, t, Running)
    else h
  }

  function CleanedUp(h: Host, t: Uuid): Host {
    Stopped(h, t).(networks := h.networks - {NetworkName(t)}, dirs := h.dirs - {TenantDir(t)})
  }

  function StateOf(h: Host, t: Uuid): ContainerState {
    if ContainerName(t) !in h.containers then StateNotFound
    else match h.containers[ContainerName(t)].status
      case Running => StateRunning
      case Paused => StatePaused
      case Exited | Created => StateStopped
      case _ => StateError
  }

  function AddressOf(h: Host, t: Uuid): Option<nat> {
    if ContainerName(t) in h.containers && NetworkName(t) in h.containers[ContainerName(t)].nets
    then h.containers[ContainerName(t)].nets[NetworkName(t)]
    else None
  }

  /** A completed init job leaves no init container and whatever configuration it wrote. */
  function Onboarded(h: Host, t: Uuid, written: Option<Json>): Host {
    var ready := DirsCreated(h, t);
    ready.(containers := ready.containers - {InitName(t)},
           dirs := ready.dirs[TenantDir(t) := Dir(written)],
           next := ready.next + 1)
  }

  function ConfigOf(h: Host, t: Uuid): Option<Json> {
    if TenantDir(t) in h.dirs then h.dirs[TenantDir(t)].config else None
  }

  /** Without a config file the call only logs a warning. */
  function ConfiguredHost(h: Host, t: Uuid, spec: Option<ProviderSpec>): Result<Host> {
    match ConfigOf(h, t)
    case None => Ok(h)
    case Some(config) =>
      match Configured(config, spec)
      case Err(e) => Err(e)
      case Ok(done) => Ok(h.(dirs := h.dirs[TenantDir(t) := Dir(Some(done))]))
  }

  // --- A start that fails on the way ---

  /** How far it had come. */
  datatype Half = Untouched | DirsMade | Cleared | Wired | Made

  /** The container as the run request creates it, before it starts it. */
  function Husk(id: nat, t: Uuid, env: map<string, string>): Container {
    NewContainer(id, t, env).(status := Created, nets := map[NetworkName(t) := None])
  }

  function HalfStarted(h: Host, t: Uuid, env: map<string, string>, half: Half): Host {
    if half.Untouched? then h
    else if half.DirsMade? || Awake(h, t) then DirsCreated(h, t)
    else
      var cleared := Stopped(DirsCreated(h, t), t);
      if half.Cleared? then cleared
      else
        var wired := NetworkCreated(cleared, t);
        if half.Wired? then wired
        else
          wired.(containers := wired.containers[ContainerName(t) := Husk(wired.next, t, env)], next := wired.next + 1)
  }

  lemma DirsFirst(h: Host, t: Uuid, env: map<string, string>, half: Half)
    ensures TenantDir(t) in DirsCreated(h, t).dirs && (Awake(DirsCreated(h, t), t) <==> Awake(h, t))
    ensures Started(DirsCreated(h, t), t, env) == Started(h, t, env)
    ensures HalfStarted(DirsCreated(h, t), t, env, half)
         == HalfStarted(h, t, env, if half.Untouched? then DirsMade else half)
  {
  }

  /** A start that failed did nothing, part of its work, or all of it. */
  ghost predicate StartFailed(a: Host, b: Host, t: Uuid, env: map<string, string>) {
    b == Started(a, t, env) || exists half :: b == HalfStarted(a, t, env, half)
  }

  lemma FailedEarly(h: Host, t: Uuid, env: map<string, string>)
    ensures StartFailed(h, h, t, env) && StartFailed(h, DirsCreated(h, t), t, env)
  {
    assert h == HalfStarted(h, t, env, Untouched);
    assert DirsCreated(h, t) == HalfStarted(h, t, env, DirsMade);
  }

  lemma FailedLate(h: Host, after: Host, t: Uuid, env: map<string, string>)
    ensures StartFailed(DirsCreated(h, t), after, t, env) ==> StartFailed(h, after, t, env)
  {
    hide Started, HalfStarted, DirsCreated;
    DirsFirst(h, t, env, Untouched);
    if after != Started(h, t, env) && StartFailed(DirsCreated(h, t), after, t, env) {
      var half :| after == HalfStarted(DirsCreated(h, t), t, env, half);
      DirsFirst(h, t, env, half);
    }
  }

  lemma KeptIsStarted(h: Host, t: Uuid, env: map<string, string>)
    requires TenantDir(t) in h.dirs
    ensures Awake(h, t) ==> WithStatus(h, t, Running) == Started(h, t, env)
    ensures StartFailed(h, h, t, env) && StartFailed(h, Started(h, t, env), t, env)
  {
    FailedEarly(h, t, env);
  }

  /** Replacing a container in one go, or removing it first. */
  lemma Replaced(h: Host, t: Uuid, env: map<string, string>)
    requires TenantDir(t) in h.dirs && !Awake(h, t)
    ensures HalfStarted(h, t, env, Untouched) == h
    ensures HalfStarted(h, t, env, Cleared) == h.(containers := h.containers - {ContainerName(t)})
    ensures HalfStarted(h, t, env, Wired) == NetworkCreated(HalfStarted(h, t, env, Cleared), t)
    ensures
      var wired := HalfStarted(h, t, env, Wired);
      && Started(h, t, env) == wired.(
           containers := wired.containers[ContainerName(t) := NewContainer(wired.next, t, env)], next := wired.next + 1)
      && HalfStarted(h, t, env, Made) == wired.(
           containers := wired.containers[ContainerName(t) := Husk(wired.next, t, env)], next := wired.next + 1)
  {
    hide NewContainer, Husk, ContainerName, NetworkName;
    var c := NewContainer(HalfStarted(h, t, env, Wired).next, t, env);
    assert (h.containers - {ContainerName(t)})[ContainerName(t) := c] == h.containers[ContainerName(t) := c];
  }

  // --- What a call may touch at most, completed or not ---

  ghost predicate SameAt<K, V>(a: map<K, V>, b: map<K, V>, k: K) {
    (k in a <==> k in b) && (k in a ==> a[k] == b[k])
  }

  lemma MapsEqual<K, V>(a: map<K, V>, b: map<K, V>)
    requires forall k {:trigger SameAt(a, b, k)} :: SameAt(a, b, k)
    ensures a == b
  {
    forall k ensures (k in a <==> k in b) && (k in a ==> a[k] == b[k]) {
      assert SameAt(a, b, k);
    }
  }

  /** Only containers, network and directory carrying t's names differ; ids are never reused. */
  ghost predicate OnlyTouches(a: Host, b: Host, t: Uuid) {
    && (forall n :: n != ContainerName(t) && n != InitName(t) ==> SameAt(a.containers, b.containers, n))
    && (forall n :: n != NetworkName(t) ==> SameAt(a.networks, b.networks, n))
    && (forall p :: p != TenantDir(t) ==> SameAt(a.dirs, b.dirs, p))
    && a.next <= b.next
  }

  lemma TouchesNothing(h: Host, t: Uuid)
    ensures OnlyTouches(h, h, t)
  {
  }

  lemma DirTouches(h: Host, t: Uuid, d: Dir)
    ensures OnlyTouches(h, h.(dirs := h.dirs[TenantDir(t) := d]), t)
  {
  }

  lemma TouchesTwice(a: Host, b: Host, c: Host, t: Uuid)
    requires OnlyTouches(a, b, t) && OnlyTouches(b, c, t)
    ensures OnlyTouches(a, c, t)
  {
    forall n | n != ContainerName(t) && n != InitName(t) ensures SameAt(a.containers, c.containers, n) {
      assert SameAt(a.containers, b.containers, n) && SameAt(b.containers, c.containers, n);
    }
    forall n | n != NetworkName(t) ensures SameAt(a.networks, c.networks, n) {
      assert SameAt(a.networks, b.networks, n) && SameAt(b.networks, c.networks, n);
    }
    forall p | p != TenantDir(t) ensures SameAt(a.dirs, c.dirs, p) {
      assert SameAt(a.dirs, b.dirs, p) && SameAt(b.dirs, c.dirs, p);
    }
  }

  /** Everything the host holds in t's name. */
  datatype Holdings = Holdings(
    container: Option<Container>,
    init: Option<Container>,
    network: Option<nat>,
    dir: Option<Dir>)

  function Lookup<K, V>(m: map<K, V>, k: K): Option<V> {
    if k in m then Some(m[k]) else None
  }

  function HoldingsOf(h: Host, t: Uuid): Holdings {
    Holdings(
      Lookup(h.containers, ContainerName(t)),
      Lookup(h.containers, InitName(t)),
      Lookup(h.networks, NetworkName(t)),
      Lookup(h.dirs, TenantDir(t)))
  }

  /** Distinct tenants share no name, so a call made for one leaves the other's holdings alone. */
  lemma OthersUntouched(a: Host, b: Host, t: Uuid, other: Uuid)
    requires OnlyTouches(a, b, t) && other != t
    ensures HoldingsOf(b, other) == HoldingsOf(a, other)
  {
    assert ContainerName(other) != ContainerName(t) && ContainerName(other) != InitName(t);
    assert InitName(other) != InitName(t) && InitName(other) != ContainerName(t);
    assert SameAt(a.containers, b.containers, ContainerName(other));
    assert SameAt(a.containers, b.containers, InitName(other));
    assert SameAt(a.networks, b.networks, NetworkName(other));
    assert SameAt(a.dirs, b.dirs, TenantDir(other));
  }

  /** What a finished init container leaves to judge it by. */
  datatype Report = Report(exitCode: int, output: string)

  predicate Contains(s: string, part: string) {
    exists i :: 0 <= i <= |s| && part <= s[i..]
  }

  /** The command fails to reach a gateway; it counts as a success once it has said that it wrote the file. */
  predicate Convincing(report: Report) {
    report.exitCode == 0 || (Contains(report.output, "Updated") && Contains(report.output, "openclaw.json"))
  }

  /** The part occurs somewhere. */
  lemma ContainsMeans(s: string, part: string)
    ensures Contains(s, part) <==> exists before, after :: s == before + part + after
  {
    if Contains(s, part) {
      var i :| 0 <= i <= |s| && part <= s[i..];
      assert s[i..] == part + s[i + |part|..] && s == s[..i] + s[i..];
      assert s == s[..i] + part + s[i + |part|..];
    }
    if before, after :| s == before + part + after {
      assert s[|before|..] == part + after;
    }
  }

  /** Container and network ids in use were all drawn from the supply, each container's for it alone. */
  ghost predicate SupplyAhead(h: Host) {
    && (forall n :: n in h.containers ==> h.containers[n].id < h.next)
    && (forall n :: n in h.networks ==> h.networks[n] < h.next)
    && (forall n, m :: n in h.containers && m in h.containers && n != m ==> h.containers[n].id != h.containers[m].id)
  }

  // --- A stop or pause that fails half way ---

  function Halted(c: Container): Container {
    if c.status in {Running, Paused, Restarting} then c.(status := Exited) else c
  }

  function HaltedHost(h: Host, t: Uuid): Host {
    if ContainerName(t) in h.containers
    then h.(containers := h.containers[ContainerName(t) := Halted(h.containers[ContainerName(t)])])
    else h
  }

  /** A reliable orchestrator's requests are never refused or lost; otherwise any of them may be. */
  class DockerOrchestrator {
    const reliable: bool
    var containers: map<string, Container>
    var networks: map<string, nat>
    var dirs: map<string, Dir>
    var next: nat

    /** The environments init jobs have been run with. */
    ghost var jobs: seq<map<string, string>>

    constructor (h: Host, reliable: bool)
      ensures View() == h && this.reliable == reliable
    {
      this.reliable := reliable;
      containers, networks, dirs, next, jobs := h.containers, h.networks, h.dirs, h.next, [];
    }

    ghost function View(): Host
      reads this
    {
      Host(containers, networks, dirs, next)
    }

    /** One request: it may be refused, or take effect and lose its answer. */
    method Request() returns (ok: bool, done: bool)
      ensures ok ==> done
      ensures reliable ==> ok
    {
      ok := Happens(reliable);
      done := *;
      done := done || ok;
    }

    method CreateTenantDirs(t: Uuid) returns (r: Result<string>)
      modifies this
      ensures jobs == old(jobs)
      ensures r.Ok? ==> View() == DirsCreated(old(View()), t)
      ensures r.Err? ==> View() in {old(View()), DirsCreated(old(View()), t)}
      ensures r.Ok? ==> r.value == TenantDir(t)
      ensures OnlyTouches(old(View()), View(), t)
      ensures containers == old(containers) && networks == old(networks) && next == old(next)
      ensures reliable ==> r.Ok?
    {
      var base := TenantDir(t);
      var ok, done := Request();
      if done && base !in dirs {
        dirs := dirs[base := Dir(None)];
      }
      return if ok then Ok(base) else Err(DockerError);
    }

    method CreateNetwork(t: Uuid) returns (r: Result<nat>)
      modifies this
      ensures r.Ok? ==> View() == NetworkCreated(old(View()), t)
      ensures r.Err? ==> View() in {old(View()), NetworkCreated(old(View()), t)}
      ensures r.Ok? ==> NetworkName(t) in networks && r.value == networks[NetworkName(t)]
      ensures OnlyTouches(old(View()), View(), t)
      ensures containers == old(containers) && dirs == old(dirs)
      ensures reliable ==> r.Ok?
    {
      var name := NetworkName(t);
      var ok, done := Request();
      if !ok {
        return Err(DockerError);
      }
      if name in networks {
        return Ok(networks[name]);
      }
      ok, done := Request();
      if done {
        networks := networks[name := next];
        next := next + 1;
      }
      return if ok then Ok(networks[name]) else Err(DockerError);
    }

    method RemoveNetwork(t: Uuid) returns (r: Result<()>)
      modifies this
      ensures r.Ok? ==> View() == old(View()).(networks := old(networks) - {NetworkName(t)})
      ensures OnlyTouches(old(View()), View(), t)
      ensures reliable ==> r.Ok?
    {
      var name := NetworkName(t);
      var ok, done := Request();
      if !ok {
        return Err(DockerError);
      }
      if name in networks {
        ok, done := Request();
        if done {
          networks := networks - {name};
        }
        if !ok {
          return Err(DockerError);
        }
      }
      return Ok(());
    }

    method RemoveTenantDirs(t: Uuid) returns (r: Result<()>)
      modifies this
      ensures r.Ok? ==> View() == old(View()).(dirs := old(dirs) - {TenantDir(t)})
      ensures OnlyTouches(old(View()), View(), t)
      ensures reliable ==> r.Ok?
    {
      var base := TenantDir(t);
      if base !in dirs {
        return Ok(());
      }
      var ok, done := Request();
      if done {
        dirs := dirs - {base};
      }
      return if ok then Ok(()) else Err(DockerError);
    }

    /** Removes a container of t's, if it is there. */
    method RemoveContainer(t: Uuid, name: string) returns (r: Result<()>)
      requires name == ContainerName(t) || name == InitName(t)
      modifies `containers
      ensures containers == old(containers) || containers == old(containers) - {name}
      ensures r.Ok? ==> name !in containers
      ensures OnlyTouches(old(View()), View(), t)
      ensures r.Err? ==> r.error == DockerError
      ensures reliable ==> r.Ok?
    {
      if name !in containers {
        return Ok(());
      }
      var ok, done := Request();
      if done {
        containers := containers - {name};
      }
      return if ok then Ok(()) else Err(DockerError);
    }

    /** The run request creates the container and then starts it; the second half may fail alone. */
    method RunContainer(t: Uuid, env: map<string, string>) returns (r: Result<nat>)
      modifies `containers, `next
      ensures r.Ok? ==> r.value == old(next) && next == old(next) + 1
      ensures r.Ok? ==> containers == old(containers)[ContainerName(t) := NewContainer(old(next), t, env)]
      ensures r.Err? ==>
        || (containers == old(containers) && next == old(next))
        || (next == old(next) + 1 && containers in {
             old(containers)[ContainerName(t) := Husk(old(next), t, env)],
             old(containers)[ContainerName(t) := NewContainer(old(next), t, env)]})
      ensures OnlyTouches(old(View()), View(), t)
      ensures r.Err? ==> r.error == DockerError
      ensures reliable ==> r.Ok?
    {
      var name := ContainerName(t);
      var created := Container(next, Created, env, Mounts(TenantDir(t)), map[NetworkName(t) := None]);
      var ok, done := Request();
      if done {
        containers := containers[name := created];
        next := next + 1;
      }
      if !ok {
        return Err(DockerError);
      }
      ok, done := Request();
      if done {
        var running := created.(status := Running, nets := map[NetworkName(t) := Some(created.id)]);
        containers := containers[name := running];
        assert containers == old(containers)[name := running];
      }
      return if ok then Ok(created.id) else Err(DockerError);
    }

    /** Asks an awake container to run: unpauses it when paused. */
    method KeepExisting(t: Uuid) returns (r: Result<nat>)
      requires Awake(View(), t)
      modifies `containers
      ensures r.Ok? ==> View() == WithStatus(old(View()), t, Running)
      ensures r.Err? ==> View() in {old(View()), WithStatus(old(View()), t, Running)}
      ensures r.Ok? ==> r.value == old(containers)[ContainerName(t)].id
      ensures OnlyTouches(old(View()), View(), t)
      ensures r.Err? ==> r.error == DockerError
      ensures reliable ==> r.Ok?
    {
      var existing := containers[ContainerName(t)];
      if existing.status == Running {
        assert containers[ContainerName(t) := existing.(status := Running)] == containers;
        return Ok(existing.id);
      }
      var ok, done := Request();
      if done {
        containers := containers[ContainerName(t) := existing.(status := Running)];
      }
      return if ok then Ok(existing.id) else Err(DockerError);
    }

    /** Replaces whatever is there by a new running container. */
    method Recreate(t: Uuid, env: map<string, string>) returns (r: Result<nat>)
      requires TenantDir(t) in dirs && !Awake(View(), t)
      modifies this
      ensures r.Ok? ==> View() == Started(old(View()), t, env)
      ensures r.Ok? ==> r.value == containers[ContainerName(t)].id
      ensures r.Err? ==> StartFailed(old(View()), View(), t, env)
      ensures OnlyTouches(old(View()), View(), t) && dirs == old(dirs)
      ensures r.Err? ==> r.error == DockerError
      ensures reliable ==> r.Ok?
    {
      hide OnlyTouches, Husk, Mounts, NetworkCreated, Started, HalfStarted;
      Replaced(old(View()), t, env);
      var removed := RemoveContainer(t, ContainerName(t));
      assert View() == HalfStarted(old(View()), t, env, if containers == old(containers) then Untouched else Cleared);
      if removed.Err? {
        return Err(DockerError);
      }
      ghost var cleared := View();
      assert containers == old(containers) - {ContainerName(t)};
      var network := CreateNetwork(t);
      assert View() == HalfStarted(old(View()), t, env, if View() == cleared then Cleared else Wired);
      TouchesTwice(old(View()), cleared, View(), t);
      if network.Err? {
        return Err(DockerError);
      }
      ghost var wired := View();
      r := RunContainer(t, env);
      TouchesTwice(old(View()), wired, View(), t);
      assert r.Err? && View() != wired && View() != Started(old(View()), t, env) ==>
        View() == HalfStarted(old(View()), t, env, Made);
    }

    method StartContainer(t: Uuid, env: map<string, string>) returns (r: Result<nat>)
      modifies this
      ensures r.Ok? ==> View() == Started(old(View()), t, env)
      ensures r.Ok? ==> ContainerName(t) in containers && r.value == containers[ContainerName(t)].id
      ensures r.Err? ==> StartFailed(old(View()), View(), t, env)
      ensures OnlyTouches(old(View()), View(), t)
      ensures r.Err? ==> r.error == DockerError
      ensures reliable ==> r.Ok?
    {
      hide OnlyTouches, DirsCreated, Started, HalfStarted;
      var base := CreateTenantDirs(t);
      FailedEarly(old(View()), t, env);
      if base.Err? {
        return Err(DockerError);
      }
      ghost var withDirs := View();
      DirsFirst(old(View()), t, env, Untouched);
      var ok, _ := Request();
      if !ok {
        return Err(DockerError);
      }
      if ContainerName(t) in containers && containers[ContainerName(t)].status in {Running, Paused} {
        r := KeepExisting(t);
        KeptIsStarted(withDirs, t, env);
      } else {
        r := Recreate(t, env);
      }
      FailedLate(old(View()), View(), t, env);
      TouchesTwice(old(View()), withDirs, View(), t);
    }

    method StopContainer(t: Uuid) returns (r: Result<()>)
      modifies this
      ensures r.Ok? ==> View() == Stopped(old(View()), t)
      ensures r.Err? ==> View() in {old(View()), HaltedHost(old(View()), t), Stopped(old(View()), t)}
      ensures ContainerName(t) in containers ==>
        && ContainerName(t) in old(containers)
        && containers[ContainerName(t)].status in {old(containers)[ContainerName(t)].status, Exited}
        && containers[ContainerName(t)].(status := Exited) == old(containers)[ContainerName(t)].(status := Exited)
      ensures OnlyTouches(old(View()), View(), t)
      ensures reliable ==> r.Ok?
    {
      var name := ContainerName(t);
      var ok, done := Request();
      if !ok {
        return Err(DockerError);
      }
      if name in containers {
        ok, done := Request();
        if done {
          containers := containers[name := Halted(containers[name])];
        }
        if !ok {
          return Err(DockerError);
        }
        ok, done := Request();
        if done {
          containers := containers - {name};
          assert containers == old(containers) - {name};
        }
        if !ok {
          return Err(DockerError);
        }
      }
      return Ok(());
    }

    method PauseContainer(t: Uuid) returns (r: Result<()>)
      modifies this
      ensures r.Ok? && ContainerName(t) in containers ==> containers[ContainerName(t)].status != Running
      ensures r.Ok? ==> View() == PausedHost(old(View()), t)
      ensures r.Err? ==> View() in {old(View()), PausedHost(old(View()), t)}
      ensures OnlyTouches(old(View()), View(), t)
      ensures reliable ==> r.Ok?
    {
      var name := ContainerName(t);
      var ok, done := Request();
      if !ok {
        return Err(DockerError);
      }
      if name in containers && containers[name].status == Running {
        ok, done := Request();
        if done {
          containers := containers[name := containers[name].(status := Paused)];
        }
        return if ok then Ok(()) else Err(DockerError);
      }
      return Ok(());
    }

    method UnpauseContainer(t: Uuid) returns (r: Result<()>)
      modifies this
      ensures r.Ok? ==> View() == Unpaused(old(View()), t)
      ensures r.Err? ==> View() in {old(View()), Unpaused(old(View()), t)}
      ensures OnlyTouches(old(View()), View(), t)
      ensures reliable ==> r.Ok?
    {
      var name := ContainerName(t);
      var ok, done := Request();
      if !ok {
        return Err(DockerError);
      }
      if name in containers && containers[name].status == Paused {
        ok, done := Request();
        if done {
          containers := containers[name := containers[name].(status := Running)];
        }
        return if ok then Ok(()) else Err(DockerError);
      }
      return Ok(());
    }

    method GetContainerState(t: Uuid) returns (r: Result<ContainerState>)
      ensures r.Ok? ==> r.value == StateOf(View(), t)
      ensures r.Ok? ==>
        if ContainerName(t) !in containers then r.value == StateNotFound
        else match containers[ContainerName(t)].status {
          case Running => r.value == StateRunning
          case Paused => r.value == StatePaused
          case Exited => r.value == StateStopped
          case Created => r.value == StateStopped
          case Restarting => r.value == StateError
          case Removing => r.value == StateError
          case Dead => r.value == StateError
        }
      ensures reliable ==> r.Ok?
    {
      var name := ContainerName(t);
      var ok, _ := Request();
      if !ok {
        return Err(DockerError);
      }
      if name !in containers {
        return Ok(StateNotFound);
      }
      var status := containers[name].status;
      if status == Running {
        return Ok(StateRunning);
      }
      if status == Paused {
        return Ok(StatePaused);
      }
      return Ok(if status in {Exited, Created} then StateStopped else StateError);
    }

    method CleanupTenant(t: Uuid) returns (r: Result<()>)
      modifies this
      ensures r.Ok? ==> View() == CleanedUp(old(View()), t)
      ensures OnlyTouches(old(View()), View(), t)
      ensures reliable ==> r.Ok?
    {
      r := StopContainer(t);
      if r.Ok? {
        ghost var stopped := View();
        r := RemoveNetwork(t);
        TouchesTwice(old(View()), stopped, View(), t);
      }
      if r.Ok? {
        ghost var unplugged := View();
        r := RemoveTenantDirs(t);
        TouchesTwice(old(View()), unplugged, View(), t);
      }
    }

    /** The one-shot container: its exit code, its output and the file it leaves are decided inside it. */
    method RunToCompletion(t: Uuid, env: map<string, string>, mounts: map<string, string>)
      returns (r: Result<Option<Json>>, report: Report)
      modifies `containers, `dirs, `next, `jobs
      ensures r.Ok? ==> jobs == old(jobs) + [env]
      ensures r.Ok? ==> containers == old(containers) - {InitName(t)} && next == old(next) + 1
      ensures r.Ok? ==> dirs == old(dirs)[TenantDir(t) := Dir(r.value)]
      ensures r.Ok? ==>
        report.exitCode == 0 || (Contains(report.output, "Updated") && Contains(report.output, "openclaw.json"))
      ensures r == Err(OnboardingFailed) ==>
        report.exitCode != 0 && !(Contains(report.output, "Updated") && Contains(report.output, "openclaw.json"))
      ensures OnlyTouches(old(View()), View(), t)
      ensures SameAt(old(containers), containers, ContainerName(t))
      ensures reliable ==> r.Ok? || r == Err(OnboardingFailed)
      ensures r.Err? ==> r.error in {DockerError, OnboardingFailed}
    {
      hide Contains, OnlyTouches;
      report := Report(-1, "");
      var started := CreateInit(t, env, mounts);
      if !started {
        return Err(DockerError), report;
      }
      ghost var running := View();
      var written: Option<Json> := *;
      dirs := dirs[TenantDir(t) := Dir(written)];
      DirTouches(running, t, Dir(written));
      TouchesTwice(old(View()), running, View(), t);
      var ok, _ := Request();
      if !ok {
        return Err(DockerError), report;
      }
      report := *;
      ghost var done := View();
      var removed := RemoveContainer(t, InitName(t));
      TouchesTwice(old(View()), done, View(), t);
      if removed.Err? {
        return Err(DockerError), report;
      }
      assert containers == old(containers) - {InitName(t)};
      return if Convincing(report) then Ok(written) else Err(OnboardingFailed), report;
    }

    method CreateInit(t: Uuid, env: map<string, string>, mounts: map<string, string>) returns (ok: bool)
      modifies `containers, `next, `jobs
      ensures ok ==> jobs == old(jobs) + [env]
      ensures ok ==> next == old(next) + 1
      ensures ok ==> containers == old(containers)[InitName(t) := Container(old(next), Running, env, mounts, map[])]
      ensures OnlyTouches(old(View()), View(), t)
      ensures SameAt(old(containers), containers, ContainerName(t))
      ensures reliable ==> ok
    {
      var done;
      ok, done := Request();
      if done {
        containers := containers[InitName(t) := Container(next, Running, env, mounts, map[])];
        next := next + 1;
        jobs := jobs + [env];
      }
    }

    method RunInitJob(t: Uuid, env: map<string, string>) returns (r: Result<Option<Json>>, report: Report)
      modifies this
      ensures r.Ok? ==> View() == Onboarded(old(View()), t, r.value)
      ensures r.Ok? ==> jobs == old(jobs) + [env]
      ensures r.Ok? ==> InitName(t) !in containers && TenantDir(t) in dirs && dirs[TenantDir(t)].config == r.value
      ensures r.Ok? ==>
        report.exitCode == 0 || (Contains(report.output, "Updated") && Contains(report.output, "openclaw.json"))
      ensures r == Err(OnboardingFailed) ==>
        report.exitCode != 0 && !(Contains(report.output, "Updated") && Contains(report.output, "openclaw.json"))
      ensures OnlyTouches(old(View()), View(), t)
      ensures SameAt(old(containers), containers, ContainerName(t))
      ensures reliable ==> r.Ok? || r == Err(OnboardingFailed)
      ensures r.Err? ==> r.error in {DockerError, OnboardingFailed}
    {
      hide OnlyTouches, Contains;
      report := Report(-1, "");
      var base := CreateTenantDirs(t);
      if base.Err? {
        return Err(DockerError), report;
      }
      ghost var withDirs := View();
      var mounts := Mounts(base.value);
      var ok, _ := Request();
      if !ok {
        return Err(DockerError), report;
      }
      var removed := RemoveContainer(t, InitName(t));
      TouchesTwice(old(View()), withDirs, View(), t);
      if removed.Err? {
        return Err(DockerError), report;
      }
      ghost var cleared := View();
      r, report := RunToCompletion(t, env, mounts);
      TouchesTwice(old(View()), cleared, View(), t);
      if r.Ok? {
        assert containers == old(containers) - {InitName(t)};
      }
    }

    method ConfigureTenant(t: Uuid, spec: Option<ProviderSpec>) returns (r: Result<()>)
      modifies this
      ensures jobs == old(jobs)
      ensures r.Ok? ==> ConfiguredHost(old(View()), t, spec) == Ok(View())
      ensures r == Err(MalformedConfig) ==> ConfiguredHost(old(View()), t, spec).Err? && View() == old(View())
      ensures r.Err? ==> r.error in {MalformedConfig, DockerError}
      ensures reliable ==> r != Err(DockerError)
      ensures View().(dirs := old(dirs)) == old(View())
      ensures
        || ConfigOf(View(), t) in {ConfigOf(old(View()), t), Some(Broken)}
        || ConfiguredHost(old(View()), t, spec) == Ok(View())
      ensures OnlyTouches(old(View()), View(), t)
    {
      hide Configured, Writable;
      var base := TenantDir(t);
      if base !in dirs || dirs[base].config.None? {
        return Ok(());
      }
      var ok, done := Request();
      if !ok {
        return Err(DockerError);
      }
      var rewritten := Rewrite(dirs[base].config.value, spec);
      if rewritten.Err? {
        return Err(rewritten.error);
      }
      r := WriteConfig(t, rewritten.value);
    }

    /** Writing the file back is not atomic: it may be cut short. */
    method WriteConfig(t: Uuid, config: Json) returns (r: Result<()>)
      modifies `dirs
      ensures r.Ok? ==> dirs == old(dirs)[TenantDir(t) := Dir(Some(config))]
      ensures dirs in {
        old(dirs), old(dirs)[TenantDir(t) := Dir(Some(Broken))], old(dirs)[TenantDir(t) := Dir(Some(config))]}
      ensures r.Err? ==> r.error == DockerError
      ensures reliable ==> r.Ok?
    {
      var ok, done := Request();
      var torn: bool := *;
      if done {
        dirs := dirs[TenantDir(t) := Dir(Some(config))];
      } else if torn {
        dirs := dirs[TenantDir(t) := Dir(Some(Broken))];
      }
      return if ok then Ok(()) else Err(DockerError);
    }
  }
}
