/** Every invariant the runs keep holds before the first request, and so in every state a deployment can reach. */
module Reachable {
  import opened Prelude
  import opened Naming
  import opened Docker
  import opened Database
  import opened Vault
  import opened Tenants
  import opened Runs
  import opened Slices
  import L = Lifecycle
  import opened AuditReplay
  import opened Schema
  import opened RoundTrips
  import opened Delivery
  import V = VaultRefinement

  /** A deployment before its first request; its master key came from the same supply. */
  function Empty(drawn: nat): World {
    World(EMPTY_DB, Host(map[], map[], map[], 0), drawn)
  }

  lemma EmptyHolds(d: Deployment, drawn: nat)
    requires d.kek.seed < drawn
    ensures
      var w := Empty(drawn);
      L.Lifecycle(w) && SupplyAhead(w.host) && AllIsolated(w.host) && Sound(w.db) && VaultKeyed(d, w)
      && MembersReplayed(w.db) && forall t: Uuid :: StatusExact(w.db, t) && StatusBounded(w.db, t)
  {
    hide ContainerName, InitName, NetworkName, TenantDir;
    var w := Empty(drawn);
    forall t: Uuid ensures L.InStep(SliceOf(w, t)) && Isolated(HoldingsOf(w.host, t).container, t) {
      assert SliceOf(w, t).row == None;
    }
  }

  /** All invariants at once, over every undisturbed run from the beginning. */
  lemma ReachableStates(d: Deployment, drawn: nat, events: seq<Event>)
    requires d.kek.seed < drawn
    requires Undisturbed(events) && FreshUsers(d, Empty(drawn), events)
    ensures
      var w := Run(d, Empty(drawn), events);
      && L.Lifecycle(w) && SupplyAhead(w.host) && AllIsolated(w.host)
      && Sound(w.db) && Readable(d.kek, w.db)
      && MembersReplayed(w.db) && forall t: Uuid :: StatusBounded(w.db, t)
  {
    hide L.Lifecycle, SupplyAhead, AllIsolated, Sound, VaultKeyed, MembersReplayed, StatusExact, StatusBounded, Run;
    EmptyHolds(d, drawn);
    var start := Empty(drawn);
    L.RunKeepsLifecycle(d, start, events);
    L.RunKeepsSupply(d, start, events);
    RunIsolates(d, start, events);
    RunKeepsSound(d, start, events);
    RunSimulatesPlainMap(d, start, events);
    KeyedReads(d, Run(d, start, events));
    MembershipIsReplay(d, start, events);
    forall t: Uuid ensures StatusBounded(Run(d, start, events).db, t) {
      ReplayBoundsStatus(d, start, events, t);
    }
  }

  lemma KeyedReads(d: Deployment, w: World)
    requires VaultKeyed(d, w)
    ensures Readable(d.kek, w.db)
  {
    V.KeyedIsReadable(d.kek, VaultState(w));
  }
}
