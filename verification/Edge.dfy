/**
 The edge's exchange with the API for one request. Between any two calls the
 system may change in any way, and any call may go without an answer.
 */
module Edge {
  import opened Prelude
  import opened Naming
  import opened Docker
  import opened Envelope
  import opened Database
  import opened Vault
  import opened Provider
  import opened Tenants
  import opened Services
  import opened Resolution

  /** The answer to a status request: a state and address with 200, no address with 404, and no JSON at all with 500. */
  datatype Reply = Reply(code: nat, state: ContainerState, ip: Option<nat>)

  /**
   What went over the wire, with the system as it was when the call was served; no
   reply or code is no answer. A status call looks at the host twice.
   */
  datatype Exchange =
    | LookupCall(answered: bool)
    | StatusCall(db: Db, host: Host, later: Host, reply: Option<Reply>)
    | EnsureCall(before: World, after: World, now: int, code: Option<nat>)

  predicate Answered(x: Exchange) {
    match x
    case LookupCall(answered) => answered
    case StatusCall(_, _, _, reply) => reply.Some?
    case EnsureCall(_, _, _, code) => code.Some?
  }

  predicate Replied(x: Exchange, code: nat) {
    x.StatusCall? && x.reply.Some? && x.reply.value.code == code
  }

  /** The address was reported, by a successful status call, for the tenant the slug then named. */
  ghost predicate Reports(x: Exchange, slug: Identifier, ip: nat) {
    && Replied(x, 200)
    && Resolve(x.db, slug).Ok?
    && AddressOf(x.later, Resolve(x.db, slug).value) == Some(ip)
  }

  /** The reported states on which the edge sends a wake: not running, and not an error. */
  predicate NeedsWake(state: ContainerState) {
    state in {StatePaused, StateStopped, StateNotFound}
  }

  /** The call was a completed, committed wake of the tenant the slug then named, delivering what the vault held. */
  ghost predicate WakeServed(kek: Key, cfg: Settings, x: Exchange, slug: Identifier) {
    && x.EnsureCall?
    && Resolve(x.before.db, slug).Ok?
    && exists secrets ::
         var t := Resolve(x.before.db, slug).value;
         var woken := TenantWoken(kek, cfg, x.before, t, x.now, secrets);
         && woken.result.Ok? && x.after == woken.world
         && (!Awake(x.before.host, t) ==> Fetched(kek, x.before.db, x.before.drawn, t, secrets))
  }

  /** Whether a wake succeeds does not depend on the secrets it delivers. */
  lemma WakeFails(kek: Key, cfg: Settings, w: World, t: Uuid, now: int, secrets: map<string, string>)
    ensures TenantWoken(kek, cfg, w, t, now, secrets).result.Err? ==>
      forall others :: TenantWoken(kek, cfg, w, t, now, others).result.Err?
  {
    hide ContainerEnv, Started, DekOf, DekEnsured;
  }

  /** What is reported for each status, and on which reports the edge sends a wake. */
  lemma StatusReported(h: Host, t: Uuid)
    ensures StateOf(h, t) == StateRunning <==>
      ContainerName(t) in h.containers && h.containers[ContainerName(t)].status == Running
    ensures StateOf(h, t) == StatePaused <==>
      ContainerName(t) in h.containers && h.containers[ContainerName(t)].status == Paused
    ensures StateOf(h, t) == StateStopped <==>
      ContainerName(t) in h.containers && h.containers[ContainerName(t)].status in {Exited, Created}
    ensures StateOf(h, t) == StateNotFound <==> ContainerName(t) !in h.containers
    ensures StateOf(h, t) == StateError <==>
      ContainerName(t) in h.containers && h.containers[ContainerName(t)].status in {Restarting, Removing, Dead}
  {
  }

  /** The tenant had no container when the call was served, or one that was paused, exited or never started. */
  ghost predicate FoundDown(x: Exchange, slug: Identifier) {
    && x.StatusCall? && Resolve(x.db, slug).Ok?
    && var name := ContainerName(Resolve(x.db, slug).value);
    (name !in x.host.containers || x.host.containers[name].status in {Paused, Exited, Created})
  }

  lemma FirstReport(x: Exchange, slug: Identifier)
    requires Replied(x, 200) ==>
      Resolve(x.db, slug).Ok? && x.reply.value.state == StateOf(x.host, Resolve(x.db, slug).value)
    ensures Replied(x, 200) ==> (NeedsWake(x.reply.value.state) <==> FoundDown(x, slug))
  {
    if Replied(x, 200) {
      StatusReported(x.host, Resolve(x.db, slug).value);
    }
  }

  class InternalApi {
    const kek: Key
    const cfg: Settings
    const reliable: bool
    var db: Db
    var host: Host
    var drawn: nat
    ghost var log: seq<Exchange>

    constructor (kek: Key, cfg: Settings, w: World, reliable: bool)
      ensures this.kek == kek && this.cfg == cfg && this.reliable == reliable
      ensures db == w.db && host == w.host && drawn == w.drawn && log == []
    {
      this.kek, this.cfg, this.reliable := kek, cfg, reliable;
      this.db, this.host, this.drawn, this.log := w.db, w.host, w.drawn, [];
    }

    /** Other requests, sweeps and Docker itself get their turn. */
    method Interfere()
      modifies `db, `host, `drawn
    {
      db, host, drawn := *, *, *;
    }

    /** The tenant list, which the edge asks for and does not read. */
    method ListTenants() returns (answered: bool)
      modifies this
      ensures log == old(log) + [LookupCall(answered)]
      ensures reliable ==> answered
    {
      Interfere();
      answered := Happens(reliable);
      log := log + [LookupCall(answered)];
    }

    /** The state first and the address second; the container may change in between. */
    method GetStatus(slug: Identifier) returns (reply: Option<Reply>)
      modifies this
      ensures |log| == |old(log)| + 1 && log[..|old(log)|] == old(log)
      ensures
        var x := log[|old(log)|];
        && x.StatusCall? && x.reply == reply && x.later == host
        && (Replied(x, 200) ==>
              && Resolve(x.db, slug).Ok?
              && reply.value.state == StateOf(x.host, Resolve(x.db, slug).value)
              && reply.value.ip == AddressOf(x.later, Resolve(x.db, slug).value)
              && var name := ContainerName(Resolve(x.db, slug).value);
              && var network := NetworkName(Resolve(x.db, slug).value);
              && reply.value.ip ==
                   if name in x.later.containers && network in x.later.containers[name].nets
                   then x.later.containers[name].nets[network] else None)
        && (reliable && Sound(x.db) ==> Replied(x, if Resolve(x.db, slug).Ok? then 200 else 404))
      ensures reply.Some? ==> reply.value.code in {200, 404, 500} && (reply.value.code != 200 ==> reply.value.ip.None?)
    {
      Interfere();
      ghost var asked, first := db, host;
      var session := new Session(db, reliable);
      var t := ResolveTenantId(session, slug);
      var answered := Happens(reliable);
      if t == Err(TenantNotFound) {
        reply := Some(Reply(404, StateNotFound, None));
      } else if t.Err? || !answered {
        reply := Some(Reply(500, StateNotFound, None));
      } else {
        var state := StateOf(host, t.value);
        Interfere();
        answered := Happens(reliable);
        reply := Some(
          if answered then Reply(200, state, AddressOf(host, t.value)) else Reply(500, StateNotFound, None));
      }
      var ok := Happens(reliable);
      reply := if ok then reply else None;
      log := log + [StatusCall(asked, first, host, reply)];
    }

    /** Wakes the tenant the slug names now and commits; a wake that fails commits nothing. */
    method EnsureRunning(slug: Identifier) returns (code: Option<nat>)
      modifies this
      ensures |log| == |old(log)| + 1 && log[..|old(log)|] == old(log)
      ensures
        var x := log[|old(log)|];
        && x.EnsureCall? && x.code == code && x.after == World(db, host, drawn)
        && (code == Some(200) ==> WakeServed(kek, cfg, x, slug))
        && (!WakeServed(kek, cfg, x, slug) ==> x.after.db == x.before.db)
        && (match Resolve(x.before.db, slug)
            case Ok(t) => OnlyTouches(x.before.host, x.after.host, t)
            case Err(_) => x.after.host == x.before.host)
        && (reliable && Sound(x.before.db) ==>
              (code == Some(200) <==> WakeServed(kek, cfg, x, slug)))
      ensures code in {None, Some(200), Some(404), Some(500)} && (reliable ==> code.Some?)
    {
      Interfere();
      ghost var before := World(db, host, drawn);
      var now: int := *;
      var session := new Session(db, reliable);
      var t := ResolveTenantId(session, slug);
      if t.Ok? {
        code := WakeAndCommit(session, t.value, now, slug);
      } else {
        code := Some(if t == Err(TenantNotFound) then 404 else 500);
      }
      ghost var x := EnsureCall(before, World(db, host, drawn), now, code);
      var ok := Happens(reliable);
      code := if ok then code else None;
      log := log + [x.(code := code)];
    }

    method WakeAndCommit(session: Session, t: Uuid, now: int, ghost slug: Identifier) returns (code: Option<nat>)
      requires session.db == db && session.committed == db && session.reliable == reliable
      requires Resolve(db, slug) == Ok(t)
      modifies `db, `host, `drawn, session
      ensures code in {Some(200), Some(500)}
      ensures
        var x := EnsureCall(World(old(db), old(host), old(drawn)), World(db, host, drawn), now, code);
        && (code == Some(200) ==> WakeServed(kek, cfg, x, slug))
        && (code != Some(200) ==> db == old(db))
        && OnlyTouches(old(host), host, t)
        && (reliable && WakeServed(kek, cfg, x, slug) ==> code == Some(200))
    {
      hide OnlyTouches, TenantWoken, Retrieves, Awake, DekEnsured, Resolve, TextOf, DekOf, TenantReadable;
      var orch := new DockerOrchestrator(host, reliable);
      var envelope := new EnvelopeVault(kek, drawn);
      var vault := new VaultService(envelope);
      var svc := new TenantService(orch, vault, cfg);
      ghost var secrets;
      var woken;
      woken, secrets := svc.WakeTenant(session, t, now);
      host := Host(orch.containers, orch.networks, orch.dirs, orch.next);
      drawn := envelope.drawn;
      if woken.Err? {
        WakeFails(kek, cfg, World(old(db), old(host), old(drawn)), t, now, secrets);
        return Some(500);
      }
      var committed := session.Commit();
      db := session.committed;
      return Some(if committed.Ok? then 200 else 500);
    }
  }

  class EdgeProxy {
    const api: InternalApi

    constructor (api: InternalApi)
      ensures this.api == api
    {
      this.api := api;
    }

    /**
     One request's exchange. An address returned was reported, by the last call,
     for the tenant the slug named at that moment; a wake is sent at most once, and
     exactly when the first report asks for it; and every other end has its reason
     in the last call.
     */
    method ResolveAndEnsure(slug: Identifier) returns (r: Result<nat>)
      modifies api
      ensures old(api.log) <= api.log
      ensures
        var x := api.log[|old(api.log)|..];
        && 1 <= |x| <= 4 && x[0].LookupCall?
        && (|x| >= 2 <==> Answered(x[0])) && (|x| >= 2 ==> x[1].StatusCall?)
        && (|x| >= 3 <==> |x| >= 2 && Replied(x[1], 200) && NeedsWake(x[1].reply.value.state))
        && (|x| >= 3 ==> x[2].EnsureCall?)
        && (|x| == 4 <==> |x| >= 3 && x[2].code == Some(200))
        && (|x| == 4 ==> x[3].StatusCall?)
      ensures
        var x := api.log[|old(api.log)|..];
        var last := x[|x| - 1];
        && (r.Ok? ==> Reports(last, slug, r.value))
        && (r.Ok? <==>
              && Replied(last, 200) && last.reply.value.ip.Some?
              && (|x| == 2 ==> last.reply.value.state == StateRunning))
        && (r == Err(TransportError) <==> !Answered(last))
        && (r == Err(TenantNotFound) <==> |x| == 2 && Answered(last) && !Replied(last, 200))
        && (r == Err(MalformedReply) <==> |x| == 4 && Replied(last, 500))
      ensures
        var x := api.log[|old(api.log)|..];
        |x| >= 2 && Replied(x[1], 200) ==> (|x| >= 3 <==> FoundDown(x[1], slug))
      ensures r.Err? ==> r.error in {TransportError, TenantNotFound, MalformedReply, NotAvailable}
    {
      hide FoundDown, Reports, WakeServed, OnlyTouches, StateOf, AddressOf, Resolve, Readable, Sound;
      ghost var before := api.log;
      var looked := api.ListTenants();
      assert api.log[|before|..] == [LookupCall(looked)];
      if !looked {
        return Err(TransportError);
      }
      var status := api.GetStatus(slug);
      ghost var first := api.log[|before| + 1];
      assert api.log[|before|..] == [LookupCall(true), first];
      Reporting(first, slug);
      FirstReport(first, slug);
      if status.None? {
        return Err(TransportError);
      }
      if status.value.code != 200 {
        return Err(TenantNotFound);
      }
      var data := status.value;
      var ip := data.ip;
      if data.state == StateRunning && ip.Some? {
        return Ok(ip.value);
      }
      if data.state in {StatePaused, StateStopped, StateNotFound} {
        var ensured := api.EnsureRunning(slug);
        ghost var wake := api.log[|before| + 2];
        assert api.log[|before|..] == [LookupCall(true), first, wake];
        if ensured.None? {
          return Err(TransportError);
        }
        if ensured == Some(200) {
          status := api.GetStatus(slug);
          ghost var last := api.log[|before| + 3];
          assert api.log[|before|..] == [LookupCall(true), first, wake, last];
          Reporting(last, slug);
          if status.None? {
            return Err(TransportError);
          }
          if status.value.code == 500 {
            return Err(MalformedReply);
          }
          data := status.value;
          ip := data.ip;
          if ip.Some? {
            return Ok(ip.value);
          }
        }
      }
      return Err(NotAvailable);
    }
  }

  lemma Reporting(x: Exchange, slug: Identifier)
    requires Replied(x, 200) ==>
      Resolve(x.db, slug).Ok? && x.reply.value.ip == AddressOf(x.later, Resolve(x.db, slug).value)
    ensures Replied(x, 200) && x.reply.value.ip.Some? ==> Reports(x, slug, x.reply.value.ip.value)
  {
  }
}
