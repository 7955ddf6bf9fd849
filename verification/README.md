# OCTW tenant engine, modelled and proved

OCTW hosts one container per tenant. Two stores are kept in step by hand: the
tenant's database row, whose changes wait for a commit, and its Docker objects,
whose changes are immediate. Next to them stands an envelope-encrypted secret
store whose values end up in the container's environment. This project models
both, together with the idle hibernation that runs beside the requests, the
provisioning endpoint that drives everything at once, and the edge that wakes
tenants on demand.

`dafny verify dfyconfig.toml` checks everything.

## How the model is built

- The classes follow the program's: `DockerOrchestrator`, `EnvelopeVault`,
  `VaultService`, `TenantService`, `HibernationScheduler`, `ProvisionRouter`,
  `InternalApi`, `EdgeProxy`, and a `Session` with a private view of the tables
  and a commit. Their methods change fields step by step, and any Docker request
  or database statement in them may fail, before or after taking effect.
- A method's contract ties a success to one step of a world made of tables,
  Docker host and random supply (`Tenants`, `Docker`, `Vault`), bounds what a
  failure may have touched, and says exactly when the call succeeds if daemon and
  database do not fail it (`reliable`).
- `Effects` says what each step comes to, column by column and by Docker's own
  statuses, without the step's own functions.
- `Runs` strings such steps together: any requests, sweeps and disturbances, in
  any order. A disturbance leaves the tables alone and the host arbitrary, which
  covers both outside drift and a request that died with its rows rolled back.
- `WakeRace`, `SweepRace` and `DekRace` cut operations at their awaits and interleave any
  number of them.

| module | content |
|---|---|
| `Prelude`, `Naming` | results and errors; names derived from a tenant's id |
| `TenantConfig` | the JSON rewrite as edits of independent paths |
| `Docker` | host, container states, the orchestrator |
| `Envelope`, `Database`, `Vault`, `Provider` | ciphertexts, tables and sessions, the secret store, settings |
| `Tenants`, `Services`, `Effects` | tenant operations as steps, the service that carries them out, and what they come to |
| `Hibernation` | the two-pass sweep and the scheduler loop |
| `Runs`, `Slices`, `Lifecycle`, `AuditReplay`, `Schema`, `RoundTrips`, `Reachable` | theorems over whole runs |
| `VaultRefinement`, `Delivery` | the vault as a plain map, and secrets on their way into containers |
| `WakeRace`, `SweepRace`, `DekRace` | concurrent wakes; wakes and a sweep; concurrent first uses of a data key |
| `Provision`, `Resolution`, `Edge` | the endpoints |
| `Traffic`, `Witnesses` | edge traffic and activity; concrete states that break a promise |

## Assumptions

- One API process. A Docker call blocks it, so consecutive Docker calls with no
  await between them are one step of a race (docker-compose.yml:36); a start that
  fails on the way is a step of its own. The sweeps run in that process too
  (nothing in the repository starts the scheduler).
- A commit that raises has published nothing; a request that raises publishes
  nothing. A row update holds the row until its transaction ends; inserts of the
  same unique key wait for one another.
- A ciphertext opens for exactly the key and nonce it was sealed with. Keys and
  nonces are drawn from a supply that does not repeat. New tenant and user ids
  are fresh where a theorem says so.
- A session can read a row again that it has written and flushed, its
  `updated_at` column, which the server fills in (src/octw/db/tables.py:44-46),
  included. A row it has loaded keeps its values when a later query returns it.
- Rows of a query come in any order. The audit log is read in commit order; the
  table itself has no sequence number (src/octw/db/tables.py:119-130).

## What turned out not to hold

- Among concurrent wakes, a success does not mean that row and container agree
  in the end. `WakeRace.SettlesExactly` says for which starts it always does, and
  `WakeRace.LostStart` gives the failing run for every other.
- Concurrent wakes may create more than one container, when a start fails between
  creating its container and starting it. `WakeRace.CreatesExactly` says from which
  starts, with `WakeRace.TwoCreated` as the run; at most one ever runs
  (`WakeRace.AtMostOneRuns`).
- Concurrent first wakes of a tenant without a data key need not all get through:
  one that loses the race for the key can only fail (`WakeRace.Progress`).
  `WakeRace.LosesExactly` says from which starts that can happen, with
  `WakeRace.SecondLoses` as the run.
- Row and container need not agree after wakes that meet a sweep, even when nothing
  fails. `SweepRace.AgreesExactly` says when they always do, and
  `SweepRace.OverwrittenWakes` gives the run for every other case.
- A wake does not repair every row (`Lifecycle.WakeConverges`,
  `Witnesses.WakeLeavesDrift`), and a start does not repair the recorded network
  id (`Lifecycle.StartRepairsAllButNetwork`, `Witnesses.StartLeavesNetworkDrift`).
  The first lemma of each pair gives the exact condition.
- A slug that is not 32 hex digits may still fail to resolve to its tenant,
  because Python's parser takes a 0x prefix (`Resolution.SlugResolves`,
  `Resolution.LegalSlugShadowed`).
- A tenant can be created under a word the edge reserves
  (`Resolution.CreatedSlugsAreRouted`).
- The architecture document counts edge traffic as activity
  (docs/architecture.md:109); the edge proxies to a running tenant without
  recording any (src/octw/edge/proxy.py:70-71). `Traffic.CountsExactly` says when
  it does count, `Traffic.BusyYetHibernated` what follows for a busy tenant;
  `Witnesses.BusyTenantPaused` and `Witnesses.SealedTenantSleepsOn` show two tenants
  for which it does not.

## Model

| member | source | states |
|---|---|---|
| Lifecycle.RunKeepsLifecycle | src/octw/orchestrator/tenant_service.py:52-225 | Over every run of requests and sweeps, each committed or refused as a whole, every tenant stays in step: RUNNING means a running container under the recorded id; STOPPED means no container and no id; PAUSED means a paused container under the recorded id, or no container and no id; no row means no container; a row's network exists under the recorded id |
| Lifecycle.RequestKeeps | src/octw/orchestrator/tenant_service.py:52-225 | One request, whoever it is for and however it ends, or one sweep, keeps every tenant in step |
| Lifecycle.RunningExactly | src/octw/orchestrator/docker_orch.py:411-424 | Under the invariant, the row says RUNNING if and only if the reported state is running; the only reported states are running, paused and not found; and the recorded id is the container's |
| Lifecycle.StartKeeps | src/octw/orchestrator/tenant_service.py:149-180 | A start keeps its tenant in step, whether it succeeds or fails |
| Lifecycle.WakeKeeps | src/octw/orchestrator/tenant_service.py:206-225 | A wake keeps its tenant in step on each of its three branches |
| Lifecycle.StartConverges | src/octw/orchestrator/tenant_service.py:149-180 | From any drift, a completed start leaves the row RUNNING, a running container, and the container's id both recorded and returned |
| Lifecycle.StartRepairsAllButNetwork | src/octw/orchestrator/docker_orch.py:343-344 | A completed start leaves the whole tenant in step if and only if its recorded network was right before, a null one included: a network made again gets a new id that nobody records |
| Witnesses.StartLeavesNetworkDrift | src/octw/orchestrator/tenant_service.py:164-176 | A tenant whose network was removed: the start succeeds, makes another one, and the row keeps the old id |
| Witnesses.WakeLeavesDrift | src/octw/orchestrator/tenant_service.py:210-213 | A STOPPED row with a running container: the wake succeeds, returns the empty string and repairs nothing |
| Lifecycle.WakeConverges | src/octw/orchestrator/tenant_service.py:206-225 | A completed wake always leaves a running container; it repairs the row if and only if it had to start one, or the row already recorded the container's id and, for a running container, RUNNING |
| Lifecycle.RestartIsFresh | src/octw/orchestrator/docker_orch.py:381-389 | A start after a stop never revives an old container: the id returned is that of no container there before |
| Lifecycle.RunKeepsSupply | src/octw/orchestrator/docker_orch.py:99-105 | Over every run of requests and sweeps every container and network id in use is one already drawn, so an id drawn later is new |
| Effects.CreateEffect | src/octw/orchestrator/tenant_service.py:58-91 | A creation succeeds exactly when id and slug are free and the creator, if any, is a user not yet a member; then there is one new STOPPED row with every column as given, the network's id in it, one admin, one event, the network and the directory, and no container |
| Effects.StartEffect | src/octw/orchestrator/tenant_service.py:149-180 | A start fails exactly for a missing tenant or a provider other than the three known ones, before Docker is touched; otherwise the row differs in status, container id and activity alone, one event is appended, and keys of other tenants stay |
| Effects.StartedHost | src/octw/orchestrator/docker_orch.py:328-379 | By raw status: a running container is left as it is, a paused one runs again, and every other, or none, gives way to a running one under a new id with the two directories at their places in it, the tenant's network, an address there, and the environment given |
| Effects.HalfStartedHost | src/octw/orchestrator/docker_orch.py:334-346 | A start that failed on the way has left nothing changed, the old container removed, the network made as well, or a created container too that has no address yet |
| Effects.EnvironmentSpelled | src/octw/orchestrator/docker_orch.py:297-308 | The three base values, the key of the row's own provider in that provider's variable when the server has one that is not empty, and the secrets over both; only the three providers, or none, are accepted |
| Effects.StopEffect | src/octw/orchestrator/tenant_service.py:186-192 | A stop changes two columns of the tenant's row, appends one event and removes one container; provider, network id, activity and all other rows and objects stay |
| Effects.WakeEffect | src/octw/orchestrator/tenant_service.py:206-225 | By raw status: a running container gets its row's activity alone updated, a paused one runs again with RUNNING, activity and one event, both answering with the recorded id, and any other is exactly a start |
| Effects.DeleteEffect | src/octw/db/tables.py:69-74 | A deletion takes the row, everything that carries its id, its container, network and directory, and nothing else; the log keeps everything and gains one event |
| Effects.JoinEffect | src/octw/orchestrator/tenant_service.py:279-297 | A member joins with the role given and the log says that role and address; a known address keeps its user, a new one gets the new id; refused exactly for a missing tenant or an existing membership |
| Effects.SecretEffect | src/octw/vault/service.py:31-63 | A secret is stored exactly when the tenant exists and its key, if any, opens: one row with type and target as given, that opens to the text under the key the tenant then has; other secrets and keys stay |
| Effects.SweepExactly | src/octw/orchestrator/hibernation.py:37-72 | For a tenant in any status, with its last activity or else its creation: past the stop threshold a RUNNING or PAUSED row becomes STOPPED without id and container, past the pause threshold a RUNNING row becomes PAUSED and its running container paused, and nothing else about it, or of any other kind, changes |
| Services.TenantService.CreateTenant | src/octw/orchestrator/tenant_service.py:52-96 | Success is one atomic step from the old rows and host to the new ones; a duplicate slug is refused before any Docker call; a failure on the way has touched no other tenant's names and no container; with daemon and database working it succeeds exactly when id and slug are free and the creator, if any, is a user who is not yet a member |
| Services.TenantService.DeleteTenant | src/octw/orchestrator/tenant_service.py:127-147 | Success removes the row, everything that references it and everything Docker holds for it, and logs it; a missing tenant is a silent success |
| Services.TenantService.StartTenant | src/octw/orchestrator/tenant_service.py:149-180 | Success is one atomic step: data key made if missing, container kept or replaced, row RUNNING under the returned id, one event; the environment's secrets are a dictionary the vault may return; an undecryptable secret or unknown provider fails before Docker is called; with daemon and database working, the result is exactly the step's, or a decryption error exactly when the secrets cannot be fetched |
| Services.TenantService.StopTenant | src/octw/orchestrator/tenant_service.py:182-192 | Success removes the container, changes status and container id of the row and no other column, and logs, even for a tenant without a row |
| Services.TenantService.PauseTenant | src/octw/orchestrator/tenant_service.py:194-204 | Success pauses a running container and leaves any other alone, yet sets PAUSED and logs in every case |
| Services.TenantService.WakeTenant | src/octw/orchestrator/tenant_service.py:206-225 | Success is the touch, the unpause or the start that the container's state calls for, with the recorded id, or the empty string, returned; a missing row behind an awake container is an attribute error raised after the unpause; with daemon and database working, the result is exactly the step's, or a decryption error exactly when a start is needed and the secrets cannot be fetched |
| Services.TenantService.AddMember | src/octw/orchestrator/tenant_service.py:271-303 | Success creates the user when the address is new, adds the membership with the role given, logs that address and role, and returns the address's user; refused exactly for a missing tenant or an existing membership |
| Services.TenantService.RemoveMember | src/octw/orchestrator/tenant_service.py:326-348 | Success removes the membership and logs it, or does nothing at all when there is none |
| Docker.DockerOrchestrator.RunInitJob | src/octw/orchestrator/docker_orch.py:127-213 | Success leaves no init container and the configuration onboarding wrote, and comes exactly with exit code 0 or an output that says the file was updated; success or failure, the tenant's own container and every other tenant's objects are untouched |
| Docker.DockerOrchestrator.ConfigureTenant | src/octw/orchestrator/docker_orch.py:215-282 | Success rewrites the file, and leaves a missing one missing; a configuration that cannot be parsed or walked is an error that changes nothing; a failed write leaves the old file, the new one or a broken one |
| Docker.DockerOrchestrator.StartContainer | src/octw/orchestrator/docker_orch.py:286-379 | Success keeps a running container, unpauses a paused one and replaces any other by a new running one on the tenant's network with the tenant's mounts and the given environment; it returns the id of the container left; a failure has done nothing, all of it, or one of the parts on the way: directories made, old container removed, network made, new container created but not started |
| Docker.DockerOrchestrator.StopContainer | src/octw/orchestrator/docker_orch.py:381-389 | Success leaves no container; a failure leaves it as it was, halted, or gone, and nothing else changed |
| Docker.DockerOrchestrator.PauseContainer | src/octw/orchestrator/docker_orch.py:391-399 | Success pauses a running container and ignores any other; a failure has done that or nothing |
| Docker.DockerOrchestrator.UnpauseContainer | src/octw/orchestrator/docker_orch.py:401-409 | Success runs a paused container and ignores any other; a failure has done that or nothing |
| Docker.DockerOrchestrator.GetContainerState | src/octw/orchestrator/docker_orch.py:411-424 | Status by status: running and paused are reported as such, exited and created as stopped, restarting, removing and dead as an error, a missing container as not found |
| Docker.DockerOrchestrator.CreateNetwork | src/octw/orchestrator/docker_orch.py:92-106 | An existing network is reused, a missing one gets a new id, and the id returned is the network's |
| Docker.DockerOrchestrator.CleanupTenant | src/octw/orchestrator/docker_orch.py:452-456 | Success leaves no container, network or directory of the tenant and everything else as it was |
| Docker.OthersUntouched | src/octw/orchestrator/docker_orch.py:29-36 | A call that touches only names built from one tenant's id leaves every other tenant's container, init container, network and directory exactly as they were |
| Naming.ContainerName | src/octw/orchestrator/docker_orch.py:32-33 | The tenant can be read back from the name, and no other name belongs to it |
| Naming.InitName | src/octw/orchestrator/docker_orch.py:136 | The tenant can be read back from an init container's name, and that name is never any tenant's container name |
| Naming.TenantDir | src/octw/orchestrator/docker_orch.py:29-30 | The tenant can be read back from its directory's path |
| Naming.TextRoundTrip | src/octw/orchestrator/docker_orch.py:29-36 | Reading the canonical text of an id gives the id |
| Naming.TextRoundTripBack | src/octw/orchestrator/docker_orch.py:29-36 | Writing an id read from a canonical text gives the text |
| TenantConfig.Rewrite | src/octw/orchestrator/docker_orch.py:233-275 | The dictionaries fetched, changed and put back one after another amount to a batch of independent path edits, and to an error when one of the paths runs through something that is not an object |
| TenantConfig.ConfigureSucceeds | src/octw/orchestrator/docker_orch.py:233-275 | The rewrite succeeds if and only if everything it walks through is an object or absent |
| TenantConfig.ConfigureIdempotent | src/octw/orchestrator/docker_orch.py:233-275 | Rewriting a rewritten configuration for the same provider changes nothing |
| TenantConfig.ConfigurePreserves | src/octw/orchestrator/docker_orch.py:233-275 | Every path unrelated to the owned ones keeps its value or its absence |
| TenantConfig.ConfigureSelects | src/octw/orchestrator/docker_orch.py:245-275 | The primary model is the provider's; a custom provider's entry is the one built from its spec, a built-in provider's is absent |
| TenantConfig.ConfigureOpensGateway | src/octw/orchestrator/docker_orch.py:235-242 | For every provider or none, the gateway is bound to the network, on port 18789, with the host-header fallback on |
| TenantConfig.ConfigureWritesEntry | src/octw/orchestrator/docker_orch.py:260-275 | A custom provider's entry has its variable in the key reference, address and protocol exactly when it has them, its one model under both names, and no other field; the mode is merge |
| TenantConfig.BuiltinRemovesStaleEntry | src/octw/orchestrator/docker_orch.py:253-258 | A custom entry is gone after a later built-in rewrite of the same provider name, whatever rewrites lie in between |
| TenantConfig.PutKeepsOthers | src/octw/orchestrator/docker_orch.py:236-275 | Writing one path changes nothing on a path that neither leads through it nor lies under it, including what can be written there |
| TenantConfig.BatchSucceeds | src/octw/orchestrator/docker_orch.py:233-275 | Independent edits succeed as a batch if and only if each path can be reached in the original tree |
| Hibernation.HibernationScheduler.CheckIdleTenants | src/octw/orchestrator/hibernation.py:36-74 | A completed two-pass sweep, in any row order, is the one-pass decision per row; a failed one leaves the rows and, on each container, nothing, the whole decision, or half of a stop; it completes whenever daemon and database work |
| Hibernation.HibernationScheduler.SweepPaused | src/octw/orchestrator/hibernation.py:60-72 | The second query sees the rows the first loop has just paused and changes none of them again |
| Hibernation.HibernationScheduler.Run | src/octw/orchestrator/hibernation.py:23-34 | Whatever rounds failed, a last round that completes leaves what it alone would have left from the very beginning, and so does any later sweep |
| Hibernation.SweepAbsorbs | src/octw/orchestrator/hibernation.py:36-74 | A sweep after an earlier sweep leaves the same rows and containers as if the earlier one had not happened, for any threshold settings and any drift |
| Hibernation.OnlyLastSweepCounts | src/octw/orchestrator/hibernation.py:23-34 | Any number of sweeps at non-decreasing times amounts to the last one |
| Hibernation.TornSweepRecovers | src/octw/orchestrator/hibernation.py:23-74 | After a sweep that failed at any point with its rows rolled back, a completed sweep at the same or a later time reaches exactly what it would have reached alone, from any drift |
| Hibernation.SweptIsTorn | src/octw/orchestrator/hibernation.py:74 | Losing the commit after every Docker effect is one of the failures the recovery theorem covers |
| Hibernation.PartIsTorn | src/octw/orchestrator/docker_orch.py:381-399 | So is failing on any one container after any set of rows was handled |
| Hibernation.HalfStopIsTorn | src/octw/orchestrator/docker_orch.py:385-386 | So is a stop that has halted the container and then failed to remove it |
| Hibernation.PartTorn | src/octw/orchestrator/hibernation.py:60-64 | So is failing between the passes, at the second query or the flush before it |
| Hibernation.SweepEffect | src/octw/orchestrator/hibernation.py:36-74 | After a sweep no RUNNING or PAUSED row is past its threshold; activity, identity and network never change; a row changes only from RUNNING or PAUSED and only downwards; a second sweep at once would do nothing |
| Hibernation.PartStep | src/octw/orchestrator/hibernation.py:48-72 | Handling one more row carries out that row's decision on its row and container, and on nothing else |
| Slices.OthersInvisible | src/octw/orchestrator/docker_orch.py:92-136 | Over any run that sends a tenant no request, its row, secrets, key, members and Docker objects end as the sweeps of that run by themselves would have left them, whatever happens to other tenants |
| Slices.TenantFraming | src/octw/orchestrator/docker_orch.py:29-36 | Without sweeps, such a run changes nothing of the tenant's at all |
| Slices.RequestFrames | src/octw/orchestrator/tenant_service.py:52-348 | One request for another tenant, completed or refused, leaves a tenant's whole share of rows and Docker objects as it was |
| Slices.SweepActsOnSlice | src/octw/orchestrator/hibernation.py:36-74 | What a sweep does to a tenant depends on that tenant's row, container and the clock only |
| Slices.AwakeWhileActive | src/octw/common/config.py:31-32 | A tenant is untouched by every sweep up to its last activity plus the smaller threshold |
| Slices.AsleepInTime | src/octw/common/config.py:31-32 | With the last sweep at most one interval ago, a tenant left alone is not RUNNING later than idle-pause plus one interval after its last activity, and neither RUNNING nor PAUSED later than idle-stop plus one interval: if it was either, it is STOPPED without a container |
| AuditReplay.ReplayBoundsStatus | src/octw/orchestrator/tenant_service.py:149-225 | Over every run, disturbances included, a live tenant's status is never more awake than the replayed log says, and equals it when nothing has been swept |
| AuditReplay.RequestLogs | src/octw/orchestrator/tenant_service.py:36-50 | A request moves status and log together: either neither moves, or one event is appended that says exactly the new status |
| AuditReplay.SweepLowers | src/octw/orchestrator/hibernation.py:48-72 | A sweep, which logs nothing, can only make a tenant less awake than the log says |
| AuditReplay.MembershipIsReplay | src/octw/orchestrator/tenant_service.py:271-348 | Over every run the membership table equals the replay of create, add, remove and delete events, and every logged address is a user |
| AuditReplay.RequestKeepsMembers | src/octw/orchestrator/tenant_service.py:81-91 | Every request extends the users and either keeps members and log or appends one event together with its effect |
| AuditReplay.MoreUsersSameReplay | src/octw/orchestrator/tenant_service.py:279-285 | Users created later do not change what earlier events replay to |
| Envelope.Open | src/octw/vault/envelope.py:62-75 | A sealed value opens if and only if key and nonce are the ones it was sealed with, and then gives what was sealed |
| Envelope.EnvelopeVault.EncryptDek | src/octw/vault/envelope.py:57-60 | The wrapped key opens under the master key and its own, never repeated nonce, and gives the data key back |
| Envelope.EnvelopeVault.EncryptValue | src/octw/vault/envelope.py:65-70 | The sealed value opens under the data key and its own, never repeated nonce, and gives the text back |
| Vault.VaultService.EnsureTenantDek | src/octw/vault/service.py:17-29 | An existing key is returned and nothing changes; a missing one is made, wrapped and inserted; the returned key is the one the row opens to; a wrapped key that does not open, and a tenant that does not exist, are the only errors of a working database |
| Vault.VaultService.StoreSecret | src/octw/vault/service.py:31-71 | Success inserts or overwrites one row, value, type and target alike, sealed under the tenant's key; nothing else changes |
| Vault.VaultService.GetDecryptedSecrets | src/octw/vault/service.py:73-87 | The dictionary has a variable for every secret, and each variable's value is that of some secret mapped to it, whatever the row order; it succeeds, on a working database, exactly when there is a key to be had and every value opens with it |
| Vault.VaultService.DecryptRows | src/octw/vault/service.py:82-87 | The loop over the rows succeeds if and only if every secret of the tenant opens, and then gives one of the dictionaries the rows allow |
| Vault.VaultService.DeleteSecret | src/octw/vault/service.py:112-126 | The row is gone, the answer says whether it was there, and nothing else changes |
| VaultRefinement.RunSimulates | src/octw/vault/service.py:17-126 | Every sequence of store, overwrite, delete, read and tenant deletion over any number of tenants simulates a plain map from (tenant, name) to a secret, and every value stays readable |
| VaultRefinement.StepSimulates | src/octw/vault/service.py:17-126 | Each operation commutes with reading the plain map off the rows, and keeps every value sealed by its owner's key under a nonce of its own |
| VaultRefinement.RetrievalIsRekeying | src/octw/vault/service.py:73-87 | After any run a dictionary can be returned if and only if it is the plain map re-keyed by target or name |
| VaultRefinement.RetrievalUnique | src/octw/vault/service.py:82-87 | With distinct variables there is one such dictionary, so row order does not matter |
| VaultRefinement.NoCrossTenantRead | src/octw/vault/envelope.py:57-75 | After any run no tenant's value opens under another tenant's data key or under the master key, with any nonce |
| Delivery.RunSimulatesPlainMap | src/octw/vault/service.py:17-126 | Inside the running system too, with starts, wakes, sweeps and disturbances in between, the vault is a plain map that only secret writes, secret deletions, tenant creations and tenant deletions change |
| Delivery.StopStartDelivers | src/octw/orchestrator/docker_orch.py:297-341 | After any run, stop then start gives a new running container on the tenant's own mounts and network, whose environment is, for every variable, the current secret mapped to it, else the server's key for the provider the row had before the stop, else the base value, all three spelled out |
| Delivery.SecretArrives | src/octw/vault/service.py:82-87 | A secret just stored is in every dictionary handed back, under its target, or under its name when the target is missing or empty, if no other secret goes there; and nothing is under the name of a secret sent elsewhere |
| Delivery.SecretReachesContainer | src/octw/orchestrator/docker_orch.py:307-308 | So the container of the next stop and start has it in that variable |
| Delivery.IdentityStays | src/octw/orchestrator/tenant_service.py:149-225 | Whatever happens to a tenant short of deletion, over any run its slug, name, network id, provider and creation time stay |
| Delivery.ProviderServed | src/octw/orchestrator/docker_orch.py:302-306 | So after any run, stop and start give the container the server's key for the provider the tenant was given, in ZAI_API_KEY, MOONSHOT_API_KEY or MINIMAX_API_KEY, unless a secret takes the variable |
| Delivery.EnvFromDictionary | src/octw/orchestrator/docker_orch.py:297-308 | Secrets outrank the provider's key, which outranks the base values, for every variable |
| Delivery.FetchRekeyed | src/octw/orchestrator/tenant_service.py:156 | What a start is handed is the plain map re-keyed, also when the data key had to be made first |
| WakeRace.SettlesExactly | src/octw/orchestrator/tenant_service.py:206-225 | From a tenant in step, every way of interleaving and failing wakes that lets all of them finish and one of them succeed ends in step with the row RUNNING, if and only if the row was RUNNING before or there is at most one call |
| WakeRace.LostStart | src/octw/orchestrator/tenant_service.py:206-225 | For every other start, stopped or paused with or without a container, with or without a data key, and for any number of calls from two up, a run that breaks it: one call makes the container run and loses its transaction, another finds it running and succeeds, and the row still says what it said |
| WakeRace.AtMostOneRuns | src/octw/orchestrator/tenant_service.py:206-225 | Any number of wakes, interleaved at their awaits, failing at any of them or half way through a start, let at most one container ever run: once one does it stays unchanged to the end; every call that returns gives its id or the empty string; and no more than one id is drawn besides one per half-failed start |
| WakeRace.CreatesExactly | src/octw/orchestrator/docker_orch.py:334-346 | However they interleave and fail, wakes never create more than one container if and only if there is one already or at most one call |
| WakeRace.TwoCreated | src/octw/orchestrator/docker_orch.py:334-346 | For every other start, a run that creates two: one call creates a container and fails to start it, the next removes it and runs another under another id |
| WakeRace.RunKeeps | src/octw/orchestrator/docker_orch.py:328-379 | The invariant of every interleaving: the container is the one of the start or a created or running new one, rows only ever record the running one, and the row is RUNNING exactly when it was or a call has committed a new status |
| WakeRace.LaunchKeepsHost | src/octw/orchestrator/docker_orch.py:328-379 | The first completed start makes a container run, in place of whatever a failed one left, and every later one keeps it |
| WakeRace.HalfKeepsHost | src/octw/orchestrator/docker_orch.py:334-346 | A start that fails half way leaves no container or one that has never run, and a running one as it is |
| WakeRace.Progress | src/octw/vault/service.py:17-29 | A step that takes some call forward exists if and only if some unfinished call is not a loser of the race for the data key, so waiting for row lock and key never deadlocks; all a loser's insert can do is fail; with a key committed beforehand nobody even needs an insert |
| WakeRace.LosesExactly | src/octw/vault/service.py:20-28 | No call can ever lose the race for the data key if and only if the key is committed already, or there is a container already, or at most one call |
| WakeRace.SecondLoses | src/octw/vault/service.py:20-28 | For every other start, a run in which one does: the second call finds no key, the first inserts one, starts the container and commits |
| WakeRace.SoloIsWake | src/octw/orchestrator/tenant_service.py:206-225 | The interleaved steps refine the whole operation: one call alone gives exactly its row, key, host and answer |
| SweepRace.AgreesExactly | src/octw/orchestrator/hibernation.py:36-74 | Any number of wakes and one sweep, interleaved at their awaits without a failure and within the sweep's thresholds, always end with row and container in agreement if and only if there is no wake or the sweep's decision for the row at the start is to keep it |
| SweepRace.OverwrittenWakes | src/octw/orchestrator/hibernation.py:48-74 | In every other case, and for any number of wakes from one up, a run in which all succeed and the container runs under a row saying PAUSED or STOPPED: the sweep acts on the container, the wakes undo it and commit, and the sweep's row is written last |
| SweepRace.LoneIsSweep | src/octw/orchestrator/hibernation.py:36-74 | The interleaved steps refine the whole operation: without wakes they do to row and Docker objects exactly what the sweep of the whole system does |
| SweepRace.FreshRun | src/octw/orchestrator/hibernation.py:36-74 | A sweep whose decision is to keep the row touches neither row nor container in any interleaving, so the wakes' own invariant stands |
| DekRace.DekAgreement | src/octw/vault/service.py:17-71 | In every interleaving of transactions that read or create data keys and write or delete secrets, with tenants coming and going, every committed secret opens under its tenant's one committed key |
| DekRace.ReadsSucceed | src/octw/vault/service.py:73-87 | Inside any open transaction, every secret it sees, committed or its own, opens with the key it holds |
| DekRace.DekIsForGood | src/octw/db/tables.py:105-114 | A committed key is never replaced; it lasts until its tenant is deleted |
| DekRace.LoserWritesNothing | src/octw/vault/service.py:97-102 | Once another key is committed, a transaction that had found none aborts on its own insert, and in no continuation does it write a key or a secret |
| DekRace.RunKeeps | src/octw/vault/service.py:17-71 | The invariant of every interleaving: keys known to transactions are the committed or the one pending key, at most one of which is pending per tenant |
| DekRace.CommitKeeps | src/octw/db/tables.py:105-114 | Publishing a transaction's key and secrets keeps every other transaction's knowledge right |
| DekRace.SoloIsDelete | src/octw/vault/service.py:112-126 | One transaction alone that deletes a secret commits exactly that row's removal |
| DekRace.SoloIsStore | src/octw/vault/service.py:31-71 | The interleaved steps refine the whole operation: one transaction alone commits exactly what storing a secret stores |
| Provision.ProvisionRouter.ProvisionTenant | src/octw/api/routers/provision_router.py:59-172 | Either the committed rows are exactly as before, or the tenant is RUNNING under its container's id and its network's id, its creator the only new member and an admin, the provider recorded, exactly the requested secrets stored, the container new on the tenant's own mounts and network, its environment exactly the base values, the server's key for zai, moonshot or minimax in that provider's variable, and the requested secrets over them, that provider's model selected with the gateway open, and no other row changed; no failure point touches another tenant's Docker objects; a duplicate slug touches none at all; and with daemon and database working, an unknown provider, a provider without a key, a taken slug and an unknown creator each give their own error, in this order, and everything else succeeds unless onboarding fails or leaves a configuration that cannot be walked |
| Provision.ProvisionRouter.BuildTenant | src/octw/api/routers/provision_router.py:101-150 | For a request in order, all steps to the commit or none of their rows; with daemon and database working the only failures are an unknown creator, failed onboarding and an unwalkable configuration |
| Provision.ProvisionRouter.StoreAll | src/octw/api/routers/provision_router.py:119-126 | Afterwards exactly the requested secrets are stored, each readable and delivered under its own name, in any order of the dictionary |
| Provision.ProvisionRouter.Onboard | src/octw/api/routers/provision_router.py:128-146 | Success runs the init job once with the provider's key, its model and the secrets, and leaves a configuration, if onboarding wrote one, that selects the model and opens the gateway; success or failure, the tenant's own container entry and other tenants' objects are untouched |
| Provision.ProvisionRouter.Launch | src/octw/api/routers/provision_router.py:148-150 | Success starts a container with exactly the requested secrets and commits everything at once; failure commits nothing |
| Provision.OnlyDictionary | src/octw/vault/service.py:82-87 | With exactly the requested secrets stored under their own names, the vault can return only the requested dictionary |
| Provision.RewriteSelectsModel | src/octw/api/routers/provision_router.py:145-146 | After the rewrite the stored configuration names the provider's model, the gateway's bind address, port and fallback |
| Reachable.ReachableStates | src/octw/orchestrator/tenant_service.py:52-348 | In every state a new deployment can reach by requests and sweeps, all at once: every tenant in step, ids drawn, containers isolated, constraints kept, every secret readable, members and statuses as the log tells |
| Reachable.EmptyHolds | src/octw/db/tables.py:23-131 | A deployment before its first request satisfies every invariant the runs keep |
| Schema.RunKeepsSound | src/octw/db/tables.py:23-116 | Over every run slugs, users and memberships stay unique and no row refers to a missing tenant or user |
| RoundTrips.CreateDeleteRestores | src/octw/orchestrator/tenant_service.py:52-147 | Deleting a tenant just created restores every table and the host; only the two log entries and the used ids remain |
| RoundTrips.PauseWakeRestores | src/octw/orchestrator/tenant_service.py:194-224 | Waking a tenant just paused restores its container and its row, with fresh activity, and returns the recorded id |
| RoundTrips.UsePostponesHibernation | src/octw/orchestrator/tenant_service.py:168-176 | A start, wake or touch postpones hibernation by the smaller threshold from the moment of use, whatever happens to other tenants |
| RoundTrips.RunIsolates | src/octw/orchestrator/docker_orch.py:310-321 | Over every run of requests and sweeps a tenant's container has its own two mounts and its own network and no others |
| RoundTrips.AddressesDiffer | src/octw/orchestrator/docker_orch.py:439-450 | Containers so isolated are found at an address on their own network, two tenants' at different ones |
| RoundTrips.NothingShared | docs/architecture.md:92-93 | Containers so isolated share, between two tenants, no network and no mounted directory |
| Resolution.ResolveTenantId | src/octw/api/routers/internal_router.py:17-30 | A text that reads as a UUID resolves to it without a look at the database, anything else by slug, or not at all; more than one row for a slug is possible only if uniqueness was lost |
| Resolution.OtherSpellings | src/octw/api/routers/internal_router.py:23-24 | A tenant's id in braces and as a URN resolves to that id too |
| Resolution.AnyCaseResolves | src/octw/api/routers/internal_router.py:23-24 | So does its text with letters of either case |
| Resolution.OthersBySlug | src/octw/api/routers/internal_router.py:27-30 | A text that reads as no UUID resolves to a tenant that has it as slug, and is not found exactly when none has |
| Resolution.IdTextResolves | src/octw/api/routers/internal_router.py:23-24 | A tenant's id text resolves to that id whatever slugs exist |
| Resolution.SlugResolves | src/octw/api/routers/internal_router.py:17-30 | A live tenant's slug resolves to it if and only if the slug has no UUID's shape, which includes a leading 0x, or spells the tenant's own id |
| Resolution.LegalSlugShadowed | src/octw/models/tenant.py:45 | Slugs made of 0x and 30 hex digits are accepted and routed, are not 32 hex digits, and resolve to another id than their tenant's |
| Resolution.CreatedSlugsAreRouted | src/octw/edge/proxy.py:25-26 | Of the slugs a tenant can be created with, the edge routes all but the reserved words, and a reserved word can be created |
| Edge.EdgeProxy.ResolveAndEnsure | src/octw/edge/proxy.py:52-87 | Under arbitrary interference between the calls, an address returned was reported by the last call for the tenant the slug then named; a wake is sent at most once, and exactly when the first report found the container paused, exited, created or missing, never for a running, restarting, removing or dead one; and every other end, 404, 503, an unreadable reply or no reply at all, happens exactly for its stated reason |
| Edge.InternalApi.GetStatus | src/octw/api/routers/internal_router.py:69-79 | A 200 carries the state, by Docker's own status, and then the address on the tenant's own network, of the tenant the slug named when asked, between which the container may change; an unresolvable slug is never a 200; without failures it is a 404, and everything else a 200 |
| Edge.InternalApi.EnsureRunning | src/octw/api/routers/internal_router.py:33-42 | A 200 means that the tenant the slug then named was woken and the wake committed, a container that had to be started having been given a dictionary the vault hands back; anything else has changed no row, unless the answer alone was lost; Docker objects of other tenants are untouched; without failures a 200 comes exactly when the wake succeeds |
| Edge.StatusReported | src/octw/orchestrator/docker_orch.py:415-424 | Reported running, paused, stopped, error and not found if and only if Docker says running, paused, exited or created, anything else, or has no such container |
| Traffic.CountsExactly | src/octw/edge/proxy.py:70-75 | Visits through the edge count as activity, for every time of visit, if and only if they find the tenant paused, or stopped or missing with secrets that can be fetched and a provider that is known |
| Witnesses.SealedTenantSleepsOn | src/octw/vault/service.py:20-22 | A stopped tenant in step whose data key was wrapped under another master key: no visit changes anything or counts |
| Traffic.BusyYetHibernated | src/octw/edge/proxy.py:70-71 | Over any run in which a RUNNING tenant is visited at any times and otherwise left alone, the next sweep decides as if nobody had come: RUNNING, PAUSED or STOPPED by the time since its last activity, which no visit has moved |
| Traffic.ServedIsVisited | src/octw/edge/proxy.py:73-76 | What the exchange's one call that changes anything does, when served, is the wake those two theorems are about |
| Witnesses.BusyTenantPaused | src/octw/common/config.py:31-32 | With the default thresholds, a tenant visited every ten minutes is paused a second after half an hour |

## Left out

- Edge.InternalApi.GetStatus: does not say which server failure is behind a 500.
- Docker.DockerOrchestrator.RunInitJob: what the init container does is arbitrary; its exit code, output and the configuration it leaves are free.
- TenantConfig.Rewrite: key order and formatting of the file are not modelled; numbers other than integers are not needed.
- Resolution.ResolveTenantId: identifiers are printable ASCII; other characters, such as Unicode digits and a newline before the end of the edge's pattern, are not modelled.
- WakeRace.AtMostOneRuns: races between a wake and a stop, a pause or a delete are not modelled; a sweep among wakes is, in `SweepRace`.
- SweepRace.AgreesExactly: neither the sweep nor a wake fails there, and wakes act within the sweep's thresholds; failing wakes are in `WakeRace`, failing sweeps in `Hibernation`.
- DekRace.LoserWritesNothing: the loser's Docker effects, if its request has any, are part of the wake race and not of this one.
- Provision.ProvisionRouter.ProvisionTenant: requires that the id drawn for the tenant names no row and no container, and that the schema's constraints hold; a network or directory left under that id is allowed.
- Schema.RunKeepsSound: assumes new users get ids nobody has.
- HTTP routing, headers, response proxying, the command line, metrics and logging: plumbing.
- Login tokens, sessions and role comparison (src/octw/api/routers/auth_router.py:15-57, src/octw/api/routers/tenants_router.py:17-30): each settled by one short function; a login appears in runs only as a user created on demand.
- Listing and lookup queries (tenants, members, secret metadata, runtime information): they only read.
- AES-GCM, random bytes, SQLAlchemy and the Docker daemon: contracts only. Loading the master key and encoding text as bytes are not modelled.
- Backup and restore (src/octw/orchestrator/backup.py:21-65): archive and subprocess input and output.
- File permissions and ownership, the sudo fallback, resource limits, health checks, runtime selection and image references: constants handed through.
- Attaching the edge container to a tenant's network, and container logs.
- A tenant's plan, limits and creation options, row update times and secret versions: columns no modelled operation reads.
- The Redis wake lock, row-level security, stopping after four hours paused and rate limits of the design document: not in the code.
