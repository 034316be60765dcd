# FeatureProbe server: key mapping and client reconciliation

A Dafny 4.11 model of the part of the FeatureProbe server that decides which SDK keys are served and by which
client. The server keeps a versioned mapping from client SDK keys to server SDK keys with a derived reverse index
(`SecretMapping`), and a table of live SDK clients (`sdk_clients`), each behind its own RwLock. A mapping task,
a reconcile task and any number of request handlers work on them at once, and several operations look under one
lock and act under another.

Run `dafny verify dfyconfig.toml` to check everything.

## The two layers

**In place, one caller at a time.** `SecretMapping.dfy` and `Inner.dfy` are the source's objects with its fields,
loops and branches. Sets are iterated in an arbitrary order. Their specification is in `Mappings.dfy`: `Adopts`,
`Inserted`, `Reconciles`, and the index predicate `Indexed`.

**All threads at once.** `Protocol.dfy` is a transition system for any number of threads in the public entry
points. A step takes or releases one lock and does the code between. `NextTask` moves a thread on, `NextSecrets`,
`NextClients` and `NextHeap` change the shared state (by `Adopts` and `Inserted` where the mapping changes), and
`Granted` says when a lock is to be had. A finished thread keeps its reply. In source terms:

| tasks | source |
|---|---|
| `ReadVersion`, `GotVersion`, then `MapWant` to `MapHeld` with `Adopt` | `src/repo.rs:236-242`, `src/secrets.rs:34-46` |
| `CheckKey`, `CheckedKey`, then `CliWant` to `CliHeld` with `Create` | `src/repo.rs:181-211` |
| `NotifyWant`, `NotifyHeld`, `Notified` (realtime build) | `src/repo.rs:202-207`, `src/repo.rs:245-251` |
| `PassBegin` to `PassRemoving`, `CliWant` to `CliHeld` with `Remove` | `src/repo.rs:213-234` |
| `MapWant` to `MapHeld` with `Insert` | `src/repo.rs:72-76`, `src/secrets.rs:64-69` |
| `QueryBegin` to `QueryReading` | `src/repo.rs:120-160`, `src/repo.rs:265-311` |
| `KeysBegin`, `KeysHeld` | `src/repo.rs:67-70` |
| `CliWant` to `CliHeld` with `Nudge` | `src/repo.rs:162-170` |

The layers meet in `PassRefinesUpdateClients`: a concurrent pass satisfies the contract that the in-place
`UpdateClients` is proved to have.

**Modes.** `init_handler` starts either the two polling tasks or one `sync` (`src/main.rs:108-113`). `Polled` is
the first: one pass at a time, any number of mapping updates, no inserts. `Static` is the second, with any number
of `sync` calls at once. `Open` allows every operation at any time. A theorem that names no mode holds in all three.

**Assumptions.** A client has an identity, a readiness flag, a repository and, in the realtime build, the client
key its callback captured. It starts not ready; its poller may store any repository at any time and readiness is
never lost. Serialisation is total. A lock's readers may be made to queue behind waiting writers (`fair`), as
parking_lot's do, or not; safety theorems hold either way.

**Records kept for the proofs.** `lin`, `synced`, `seen`, `mark` and `under` record when things happened. No step
depends on them.

## What came out

- The realtime build, which is the default, can deadlock. A pass that creates a client reads the mapping lock a
  second time (`src/repo.rs:249`) while it holds it (`src/repo.rs:219`); a writer queued in between
  (`src/repo.rs:239`) stops both for good. Concurrent callers of `SdkRepository::sync` can deadlock too, without any
  pass: a `sync` creating a client, a `sync` queued to insert, and a query wait for each other. With realtime
  compiled out, or with locks whose readers overtake waiting writers, there is no deadlock. `DeadlockFreeIff` has
  both directions. `PolledFinishableIff` and `StaticFinishableIff` say from exactly which states the calls in flight
  can still be finished; `StuckNeedsTwoSyncs` shows that `sync` calls which do not overlap, like the single one of
  `init_handler`, never get stuck.
- `insert` on a client key that the index names leaves a stale index entry. `IndexOverHistory` has the exact
  condition.
- Overlapping `sync` calls for one key can replace a client that is already serving, in either build
  (`OverlappingSyncsReplaceClient`). `ServingClientKeepsPlaceIff` has the exact condition, for every static state and
  build. With a single reconcile task it cannot happen (`ServiceContinues`).
- An update callback need not capture a client key of its own server key. `CapturedWellIff` has the exact condition
  for every client ever made in any mode. In polled mode it always holds; in static mode the first client made for a
  key captures none.

## Model

| member | source | states |
|---|---|---|
| Mappings.RebuildIsExact | src/secrets.rs:39-44 | the indexes that the rebuild loop can leave, over all iteration orders, are exactly those that cover every server key and point back correctly |
| Mappings.IndexedKeys | src/secrets.rs:56-58 | the index's keys are the values of the forward map |
| Mappings.InjectiveIndexIsInverse | src/secrets.rs:39-44 | for an injective mapping the index is its inverse, whatever the order |
| Mappings.ChangeKeepsIndexIff | src/secrets.rs:34-69 | from an exact index, one insert or update keeps it exact if and only if it does not rebind a client key that the index names |
| Mappings.IndexOverHistory | src/secrets.rs:34-69 | over any history every server key in use stays indexed; all states are exact if and only if no insert rebinds an indexed client key |
| Mappings.RebindingLeavesStaleEntry | src/secrets.rs:64-69 | a concrete rebinding after which a server key no client has is still known |
| Mappings.RegisterHoldsGreatest | src/secrets.rs:34-37 | applying updates one after another leaves exactly the greatest version, the earliest of those that tie |
| Mappings.ReceivedIsRegister | src/secrets.rs:34-46 | `update_mapping` over a series of responses is that register, and ends with an exact index |
| Mappings.DeliveryOrderIrrelevant | src/secrets.rs:34-58 | the same responses in any order, with duplicates, give the same version, forward map and server keys |
| SecretMappings.SecretMapping.constructor | src/secrets.rs:18-28 | the mapping given, with an exact index |
| SecretMappings.SecretMapping.Reversed | src/secrets.rs:39-42 | the loop, in any order, leaves an exact index |
| SecretMappings.SecretMapping.UpdateMapping | src/secrets.rs:34-46 | a strictly newer mapping replaces the old one with an exact index, whatever index came with it; any other changes nothing |
| SecretMappings.SecretMapping.Insert | src/secrets.rs:64-69 | the version becomes the argument whatever it was, the pair is bound both ways, and every other client key and every other index entry stays |
| SecretMappings.SecretMapping.ServerSdkKeys | src/secrets.rs:56-58 | every indexed server key once, in some order |
| SdkRepository.Inner.Sync | src/repo.rs:181-211 | an existing client stays; otherwise one new client is added, which in the realtime build notifies the client key the index names, or none if it names none; under an exact index that key leads back to the client's server key |
| SdkRepository.Inner.RemoveUnwanted | src/repo.rs:213-232 | the second loop, in any order, removes the snapshot's keys that are not wanted; every other client, also of a key added since the snapshot, stays in its place |
| SdkRepository.Inner.UpdateClients | src/repo.rs:218-234 | nothing at version 0; else exactly the desired keys, the identical client where there was one, new ones elsewhere, notifying a client key of their own server key under an exact index; nothing if the keys already agree |
| SdkRepository.Inner.UpdateMapping | src/repo.rs:236-242 | a strictly newer mapping is taken over with its server keys as index keys; for any other nothing changes, in spite of the unlocked check |
| SdkRepository.Inner.SyncPair | src/repo.rs:72-76 | binds the pair both ways at the given version and leaves all other pairs; keeps all clients and keeps every indexed key supplied with one; a new client captures from the mapping before the insert |
| SdkRepository.Inner.ServerSdkRepo | src/repo.rs:120-132 | serves if and only if the version is above 0, the key is indexed and its client is initialised, and then that client's repository; otherwise NotFound exactly for an unknown key above version 0, else NotReady |
| SdkRepository.Inner.ClientSdkRepo | src/repo.rs:134-160 | the same for a client key through its mapped server key, with the key each error names |
| Evaluation.ServerOnlyTogglesInvisible | src/repo.rs:290-295 | repositories agreeing on segments and client toggles evaluate alike for every user, evaluator and order, under exactly the client toggles' keys |
| Locks.MutualExclusion | src/repo.rs:25-26 | invariant behind the proofs: in every reachable state a writer of a lock shares it with no reader or writer |
| Locks.DeadlockFreeIff | src/repo.rs:120-263 | no reachable state is stuck if and only if the build is not realtime or readers may overtake queued writers |
| Locks.StuckOnlyBehindNotifier | src/repo.rs:245-251 | every stuck state has a client being created that waits to read the mapping behind a queued writer |
| Locks.PolledStuckIsSelfBlocked | src/repo.rs:218-251 | polled: every stuck state has a pass creating a client, which reads the mapping already, behind a queued mapping update |
| Locks.PassBlocksItself | src/repo.rs:218-251 | a reachable stuck state in polled mode: the pass waits for the writer and the writer for the pass |
| Locks.SelfBlockedForever | src/repo.rs:239-249 | from there neither of the two moves again, whatever others do |
| Locks.SyncCallsBlock | src/repo.rs:72-76 | a reachable stuck state in static mode, without a pass |
| Progress.StepShrinks | src/repo.rs:181-242 | every step of every thread lessens a well-founded measure of the work in flight |
| Progress.AllCallsCanFinish | src/repo.rs:67-263 | from every reachable state of a build that cannot deadlock, the calls in flight can all be finished |
| PolledCompletion.PolledFinishableIff | src/repo.rs:218-251 | polled, every build: the calls in flight can all be finished if and only if not (realtime, fair, and a mapping update queued while the pass has yet to read the mapping for a client it must create) |
| StaticCompletion.StaticFinishableIff | src/repo.rs:72-211 | static, every build: the same, the bad states being those with a queued insert, a query that holds the mapping and has yet to read the table, and a creator holding or queued for the table that has yet to read the mapping |
| StaticCompletion.StuckNeedsTwoSyncs | src/repo.rs:72-251 | static: a stuck state has two distinct `sync` calls, one waiting to read the mapping for its new client and one queued to insert, and a query between them |
| Register.StepIsAtomicDelivery | src/repo.rs:236-242 | polled: each step is invisible to the mapping register or one atomic delivery, once per call and during the call |
| Register.MappingIsGreatestDelivered | src/repo.rs:236-242 | polled: the mapping is the greatest delivered by the calls that took effect, earliest among equals; every finished call took effect once |
| Register.VersionNeverDecreases | src/secrets.rs:35-36 | polled: the version never goes down, and the mapping changes only with it |
| StaticRegister.StepIsAtomicInsert | src/repo.rs:72-76 | static: each step is invisible to the mapping or one insert of the moving call's pair, once per call |
| StaticRegister.MappingIsLastInserted | src/secrets.rs:64-69 | static: the mapped client keys are those of the finished calls, each with the server key of the last call for it; the index likewise the other way; the version is that of the last call |
| Reconcile.PassReconciles | src/repo.rs:218-234 | a completed pass leaves all desired keys and no others but those `sync` calls put there since it started |
| Reconcile.DesiredNeverRemoved | src/repo.rs:227-231 | no step takes the client from a key the mapping wants |
| Reconcile.MappingHeldDuringPass | src/repo.rs:219-234 | the mapping does not change during a pass |
| Reconcile.Convergence | src/repo.rs:78-117 | polled: once all received mappings are in, a completed pass leaves clients for exactly the server keys of the greatest one, or none if all were version 0 |
| Reconcile.PassEndsExact | src/repo.rs:218-234 | polled: every completed pass leaves exactly the present server keys |
| Reconcile.PassRefinesUpdateClients | src/repo.rs:218-234 | polled: a concurrent pass meets the in-place contract from start to end: same clients kept, new ones elsewhere, no change if the keys agree |
| Service.VerdictIsAtomic | src/repo.rs:120-160 | a verdict read in several steps is the one of a single state |
| Service.QueryHoldsMapping | src/repo.rs:121-131 | the mapping stays as it was when the query took its lock until the query returns |
| Service.KeysAreOneSnapshot | src/repo.rs:67-70 | `secret_keys` returns the mapping of one state |
| Service.SyncNowAnswers | src/repo.rs:162-170 | answers by the table and changes nothing |
| Service.RevocationIsImmediate | src/repo.rs:120-160 | polled: while the mapping does not have a key every answer for it is NotFound, whatever is in the table |
| Service.ServiceContinues | src/repo.rs:120-132 | polled: while the mapping leads a query to a key whose client is ready, every answer comes from that same client, at every micro-step |
| Service.ViewsAgree | src/repo.rs:134-160 | polled: a client key gets the verdict of its server key, and every known server key has a client key that does |
| StaticMode.CreatedBeforePublished | src/repo.rs:72-76 | static: every indexed key has a client at every micro-step, so a known key is refused only while its client initialises |
| StaticMode.FirstClientCapturesNothing | src/repo.rs:72-76 | static: a client being made for a key that has none in the table captures no client key, because the pair is inserted later |
| Notify.CaptureReadsIndex | src/repo.rs:248-251 | every mode, realtime: the captured key is the one the present index names for the server key, none if it names none |
| Notify.CapturedWellIff | src/repo.rs:245-251 | every mode, realtime, every client ever made: it captured a client key of its server key if and only if the mapping in force at the capture indexed that key by a client key leading to it, and none if and only if the key was not indexed |
| StaticClients.ServingClientKeepsPlaceIff | src/repo.rs:181-211 | static, every build: a serving client keeps its place in every run if and only if no `sync` in flight has already found its key missing, or the state can no longer finish (realtime, fair, doomed) and no such call is past its reads |
| StaticClients.OverlappingSyncsReplaceClient | src/repo.rs:181-211 | static, either build: a reachable state whose next step replaces a serving client by one that is not ready |
| Notify.CreatedUnderPass | src/repo.rs:202-207 | polled, realtime: a client is made only inside a pass and captures a client key of its server key in the mapping that pass holds |
| Notify.EveryClientCapturedWell | src/repo.rs:245-251 | polled, realtime: so did every client ever made |
| Handler.ServerResponse | src/http/handler.rs:80-107 | 503 exactly at version 0 or for a known key without a ready client; the default repository for an unknown key; else the key's own |
| Handler.ClientTogglesResponse | src/http/handler.rs:109-125 | 503 exactly at version 0 or for a mapped key whose server key has no ready client; an empty object for an unmapped key; else the evaluation of its server key's repository; an undecodable user is an error |
| Handler.ClientEventsResponse | src/http/handler.rs:127-141 | the same for events |
| Handler.ClientSeesServerRepository | src/http/handler.rs:80-141 | polled: a client key is shown the evaluation and the events of the repository its server key is sent, with the same status |
| Handler.BuildHeader | src/http/handler.rs:280-293 | one authorisation with the server key, the user agent if valid, the caller's `ua` if any, nothing else, no name twice |
| Handler.EventForwarder.HandleEvents | src/http/handler.rs:199-256 | 401 and nothing handed on exactly for a key that begins with "client" and is not in the snapshot; otherwise one post to the events target, and before it the same to the analysis target if there is one, with the request's data and authorised with the mapped server key, or with the key itself if it does not begin with "client" |
| Handler.OfCallHanded | src/http/handler.rs:236-256 | what a call hands on, seen from one target: one post for a configured target of an accepted batch, nothing otherwise |
| Handler.EventsHandedOnce | src/http/handler.rs:199-256 | over any series of calls and mappings: accepted batches go once to each target with equal data and headers, rejected ones nowhere |
| Handler.HandleSeries | src/http/handler.rs:199-233 | a new forwarder that handles a series of calls has exactly that series in its outbox, and answers 401 to exactly the calls whose snapshot does not know their key |
| Handler.EventsAuthorisedAsQueried | src/http/handler.rs:210-221 | polled, above version 0: the mapping a `secret_keys` call returns refuses a client-prefixed key exactly when a query for it would be NotFound at that moment, and otherwise gives the server key with the client key's own verdict |

## Left out

- Evaluation of toggles, segments and rules is in the SDK crate; it is an arbitrary function here.
- The SDK client's polling, own lock and callbacks: only its identity, readiness, repository and captured key.
- HTTP transport, routing, CORS headers, socket.io, timers and failed fetches: a mapping response is a call that
  may begin at any time.
- JSON and base64: serialisation is total, and a user that cannot be decoded is given as such.
- `ServerConfig`, logging, `main.rs` beyond the choice of mode, the stubs of the `unstable` feature, the test handler.
- `update_toggles` of the handler: its status follows from `SyncNowAnswers` in one match.
- The 128-bit width of versions: they are only stored and compared, so naturals do.
- Releases at the end of a call: a query gives up both its locks in one step.
- When clients are dropped: a removed client leaves the table, its object is not reclaimed.
- Scheduling fairness: convergence is stated for a pass that has completed. `AllCallsCanFinish` gives a schedule
  and `StepShrinks` bounds every other one, but no scheduler is modelled.
- The open mode of the realtime build with fair locks: when its calls can be finished is stated for the two modes
  that `init_handler` starts, not for mixtures of passes and inserts, which it never runs.
- SecretMapping lookups: `client_sdk_key`, `server_sdk_key` and `contains_server_sdk_key` are single lookups and
  are used where they occur.
