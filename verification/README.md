# Verified model of the Kynomesh Go agent SDK

The SDK gives an agent two things: a client side that finds its peers, builds one client
per peer and publishes the hashes of the peers' AgentCards for the broker
(`pkg/client`), and a server side that opens two listeners, serves until it is cancelled
and reports readiness (`pkg/server`). This project models the parts where several
goroutines meet, and the loops whose results can be stated exactly, and proves what they
guarantee for every input, every interleaving and every choice of failing operation.

## How the model is organised

Interleaved code is a state machine. A state holds the shared variables and a map from
call to control point; a label names the call that steps and what the environment does to
it; `Enabled` and `Next` give the step. A call is split wherever another goroutine can be
scheduled. Each machine has an invariant `Inv`, a lemma `NextInv` that every step keeps it,
and a module `...Runs` with theorems about whole runs: any number of calls, any schedule,
any length. The same bodies are also written as classes and methods, the way the source
has them, and their contracts are given by the functions the machines step with.

| file | models |
|---|---|
| `PeerCache`, `CacheRuns` | the peer-client cache of `cache.go` |
| `EpochCache` | a sequential cache of six atomic actions, and the proof that the interleaved one implements it |
| `PeerClients` | `cache.go` as objects, tied to `PeerCache` by a run |
| `AtomicFile` | publication by temporary file and rename, for both writers |
| `HashFile`, `HashRuns` | `recordPeerHash`: clear once, lock, read, modify, publish |
| `FileSystem` | the same bodies as methods over a disk whose operations may fail |
| `Topology` | the load-once topology: concurrent readers, and the lookup methods |
| `HeaderCheck`, `PeerOptions` | header validation, the insecure-TLS list, factory options |
| `Runtime`, `RuntimeRuns`, `Liveness` | cache, topology and hash file running together |
| `Agreement`, `Mismatch` | when the published hash is the cached client's: what keeps them together, and that nothing less does |
| `Lifecycle`, `LifecycleRuns` | `Start`, its two serve goroutines and the channel |
| `Listeners` | `newListener` and the acquiring part of `Start` as methods |
| `Health` | readiness on two surfaces: the object, and overlapping calls on it |

Fields called history (`removed`, `creator`, `log`, `base`, `stale`, `faulty`, `loads`,
`received`, `events`, `arm`, `shutdownOk`, `last`) record what happened; no step of the
program reads them, except that an entry's `creator` and its once's runner name goroutines
so that theorems can speak of them.

## What is assumed of the libraries

- `sync.Once.Do` runs its function once and returns to every caller only after it has
  completed; a mutex has at most one holder.
- Building a client ends, with a client and a card or with an error, and does not panic.
- Rename is atomic, and a read of a file sees the bytes of one moment. `CreateTemp` makes a
  file that did not exist. Anything may fail; a failed write leaves a prefix of its data;
  a crash is a run that stops.
- Decoding undoes encoding for the hash map (`HashFile.Faithful`). The canonicalising
  SHA-256 hash of a card is one deterministic partial function, `env.hash`.
- HTTP and gRPC `Serve` close their listener when they return. Their result, after the
  filtering in `Start`, is nil only if the server was stopped. Stopping a server closes the
  listener it serves on. `GracefulStop` ends, that is, in-flight calls end.

## Where code and documentation differ

- `pkg/server/health.go:35` says that the zero value of `Health` reports SERVING. Its
  status is the zero of the gRPC enumeration, which is UNKNOWN, so the HTTP surface answers
  503: `Health.FirstAnswers`. The machine in `Health` starts from `NewHealth`.
- Readiness goes down when `Start` shuts down because it was cancelled. When a serve
  goroutine fails, nothing takes it down (`pkg/server/server.go:156-160`):
  `LifecycleRuns.DownBeforeStop` and `LifecycleRuns.ServeFailureReturns`.
- "Both surfaces observe the change" (`pkg/server/health.go:55-57`): the store and the push
  are separate steps. `Health.AgreementIff` says exactly which overlaps are harmless:
  attach with attach, and SetServing with SetServing of the same status.
- The file promises the broker the hash of the card each peer's client was built from
  (`pkg/client/hash.go:49-53`). `Agreement.FileMatchesCache` and `Mismatch.DeleteIsSafeIff`
  say exactly when: a ForgetPeer must not take out an entry whose build may still take the
  hashes lock, for that older build may then record last. A delete is harmless when it
  meets cache hits, waiters on a finished entry, failed builds, builds that are bound to
  fail, or a build that already holds or has released the lock.

## Model

| member | source | states |
|---|---|---|
| `PeerCache.NextInv` | `pkg/client/cache.go:72-117` | every step of every PeerClient or ForgetPeer call keeps the cache invariant: map, allocated entries, lock, and each call's control point agree |
| `PeerCache.StepMapOk` | `pkg/client/cache.go:73-117` | every allocated entry is either cached under its own name or was removed exactly once, whatever step is taken |
| `CacheRuns.OneOutcomePerEntry` | `pkg/client/cache.go:81-97` | calls that picked one entry, at any two moments of any run, return the same pair, for the same name, built under the headers and options of the call that won the once |
| `CacheRuns.ReturnsBuildsResult` | `pkg/client/cache.go:81-97` | what a call returns was decided at one earlier step of its entry's build: the very error it was refused with, or the client and card delivered, under the builder's headers and options |
| `CacheRuns.NoPoison` | `pkg/client/cache.go:90-96` | at every moment of every run, an unfinished cached entry has its creator in flight; a failed one has its builder in flight with the eviction still ahead |
| `CacheRuns.QuietCacheHoldsClients` | `pkg/client/cache.go:90-97` | in every run, with no call in flight every entry ever created was built to completion and every cached one holds a client built for its name |
| `CacheRuns.RemovedNeverReused` | `pkg/client/cache.go:73-79` | a removed entry never returns to the map and no later lookup picks it; what is picked instead is a different entry, newer if of the same name |
| `CacheRuns.AllocatedAfterRemoval` | `pkg/client/cache.go:74-78` | when an entry is allocated, every older entry of its name is already out of the map |
| `CacheRuns.FreshAfterForget` | `pkg/client/cache.go:110-117` | a call that looks up after ForgetPeer deleted uses an entry that did not exist at the delete, whatever else was in flight |
| `CacheRuns.FreshAfterFailure` | `pkg/client/cache.go:90-96` | a call that looks up after a failed call for its name returned uses a newer entry, allocated after the failed one had left the map |
| `CacheRuns.LateEvictSparesOthers` | `pkg/client/cache.go:100-108` | a late failing caller's eviction leaves every other cached entry cached |
| `CacheRuns.Conservation` | `pkg/client/cache.go:74-89` | at every moment of every run, per name, entries created equal effective removals plus one if the name is cached; with no call in flight, finished builds equal entries created |
| `CacheRuns.BuiltAtMostOnce` | `pkg/client/cache.go:81-89` | over a whole run an entry has one builder and a call builds one entry at most |
| `CacheRuns.RunCaused` | `pkg/client/cache.go:90-117` | every removal was caused by a ForgetPeer of the name or by a failed build of that entry |
| `CacheRuns.ExactlyOneBuild` | `pkg/client/cache.go:44-51` | a name that was called, never forgotten and never failed was built exactly once, and all its calls returned that one client |
| `EpochCache.Refines` | `pkg/client/cache.go:72-117` | every interleaving of any number of calls is, step by step, a run of the sequential epoch cache, seen through one abstraction |
| `EpochCache.AnswersAreTheEpochs` | `pkg/client/cache.go:72-98` | in a sequential run that explains the interleaved one moment by moment, a completed call returns the one outcome its epoch was settled with, the epoch being the one fixed at its lookup and bearing its name |
| `EpochCache.OneEpochOneAnswer` | `pkg/client/cache.go:72-98` | two callers of one epoch, returning at any two moments, asked for the same name and got the same answer |
| `EpochCache.SpecRunOk` | `pkg/client/cache.go:72-98` | in the sequential cache a current epoch bears its name and an answer is the settlement of the picked epoch |
| `EpochCache.SpecRunOnlyGrows` | `pkg/client/cache.go:81-97` | epoch names, picks, settlements and answers are written once and never revised |
| `PeerClients.PeerClients.LookupOrInsert` | `pkg/client/cache.go:73-79` | the map and heap afterwards are the lookup step's; an existing entry is handed out as it is, a new one is fresh |
| `PeerClients.PeerClients.ForgetEntry` | `pkg/client/cache.go:102-108` | the entry leaves the map exactly if the map still holds that very entry for the name |
| `PeerClients.PeerClients.ForgetPeer` | `pkg/client/cache.go:113-117` | the name, and only it, leaves the map; entries held by callers are untouched |
| `PeerClients.PeerClients.BuildOnce` | `pkg/client/cache.go:81-89` | the first caller settles the entry with the build's client or error; later callers change nothing |
| `PeerClients.PeerClients.FindAndBuild` | `pkg/client/cache.go:73-89` | the uninterrupted call up to its error check: the name's entry is found, or opened and built |
| `PeerClients.PeerClients.PeerClientWithCardHeaders` | `pkg/client/cache.go:72-98` | the uninterrupted call: resulting cache, and client or error, including the eviction of a failed build; the cache is again one it can be called on |
| `PeerClients.SoloKeeps` | `pkg/client/cache.go:72-98` | an uninterrupted call leaves a sound map in which every entry is built |
| `PeerClients.SecondCall` | `pkg/client/cache.go:44-65` | a call after a successful one for the name returns the same client and changes nothing, whatever headers and options it passes; after a failed one it builds anew |
| `PeerClients.MissBuilds` | `pkg/client/cache.go:72-98` | a call for a name that is not cached opens one entry, returns what its build came to, and leaves the name cached exactly if that was a client |
| `PeerClients.SoloRun` | `pkg/client/cache.go:72-98` | the interleaving model has a run of one uninterrupted call with exactly the method's effect and result |
| `AtomicFile.CrashAtomic` | `pkg/client/hash.go:142-173` | after any prefix of steps under any faults the target holds all old or all new bytes; nil means new, an error means old; no other existing file changes |
| `AtomicFile.NoStrayFile` | `pkg/server/serverinfo/serverinfo.go:93-127` | on return a temporary file remains only if the clean-up remove broke, and then it is one new file holding a prefix of the data |
| `AtomicFile.SucceedsIff` | `pkg/server/serverinfo/serverinfo.go:93-127` | a writer that has returned has succeeded if and only if no operation broke and it was not asked to check an empty path |
| `AtomicFile.WriteStepOk` | `pkg/client/hash.go:142-173` | every operation of the writer, working or broken, keeps the file system equal to the original plus at most its own temporary file, and gets nearer to its end |
| `FileSystem.Disk.WriteAtomically` | `pkg/server/serverinfo/serverinfo.go:93-127` | what is performed on the disk is a complete run of the protocol; it succeeds by exactly seven working operations, with exactly the data published, and fails only if a performed operation broke or the path to be checked is empty, leaving every existing file as it was |
| `FileSystem.Disk.EncodeAndPublish` | `pkg/client/hash.go:142-173` | past the check of the path both writers do the same: the seven operations, or one that broke |
| `FileSystem.Disk.Prepare` | `pkg/client/hash.go:143-149` | the directory is made and the value encoded, or one of the two broke |
| `FileSystem.Disk.Publish` | `pkg/client/hash.go:150-172` | from the temporary file on, the remaining operations in order, or one that broke |
| `FileSystem.Disk.Fill` | `pkg/client/hash.go:155-163` | writing and closing the temporary file is a run of the protocol, ending with the file whole or its clean-up due |
| `FileSystem.Disk.Install` | `pkg/client/hash.go:164-171` | changing its mode and renaming it is a run of the protocol, ending published or with the clean-up due |
| `FileSystem.Disk.FillAndRename` | `pkg/client/hash.go:155-172` | from the first write to the return, every clean-up path is a run of the protocol |
| `FileSystem.PeerHashes.ReadPeerHashes` | `pkg/client/hash.go:124-137` | an absent file is an empty map; a file holding an encoded map reads back as that map; a file that does not decode, or a broken read, is an error |
| `FileSystem.PeerHashes.RecordPeerHash` | `pkg/client/hash.go:96-120` | outside a pod, or without a hash, nothing is touched; otherwise the first call, and no other, begins by removing the file; success sets this one entry in the map that was left, failure leaves it as it was and happens only if it does not decode or an operation broke; no other file changes |
| `HashFile.NextInv` | `pkg/client/hash.go:96-120` | every step of every recorder keeps the invariant tying file, lock, clear-once guard and log of committed updates |
| `HashFile.CurrentDoc` | `pkg/client/hash.go:114-118` | what the lock holder reads is the fold of all committed updates over what the clear left |
| `HashRuns.FoldLast` | `pkg/client/hash.go:118` | in the folded map each name has its last committed item, otherwise its old one |
| `HashRuns.EveryReadIsWhole` | `pkg/client/hash.go:139-173` | the broker, reading at any moment, sees no file, the previous process's file before the clear, or one whole committed prefix of the updates |
| `HashRuns.CommitsUnderLock` | `pkg/client/hash.go:111-119` | in every run the log grows only by the lock holder's rename, one update at a time, so its order is the lock order, and no recorder commits twice |
| `HashRuns.ObservedAtClock` | `pkg/client/hash.go:101-118` | the time in a committed item is what the clock said at its recorder's earlier step of hashing the card, before the clear and the lock |
| `HashRuns.NoLostUpdate` | `pkg/client/hash.go:111-119` | once a recorder returned nil, every later file shows for its name its update or a later committed one |
| `HashRuns.ClearOnceAndFirst` | `pkg/client/hash.go:58-68` | the stale file is cleared at most once and before any update is published, though the clear runs outside the mutex |
| `HashRuns.EntriesAreOwn` | `pkg/client/hash.go:107-118` | if the clear took effect, every entry a reader finds is the name and card hash of one of this process's recorders |
| `HashRuns.CleanRunPublishes` | `pkg/client/hash.go:96-120` | if nothing broke, every recorder that returned in a pod has its name in the file |
| `RuntimeRuns.Projections` | `pkg/client/client.go:183-234` | a run of cache, topology and hash file together is a run of each, so the component theorems hold of the whole |
| `Runtime.NextInv` | `pkg/client/cache.go:81-89` | every step of the whole keeps the link between builds, topology readers and recorders: a client exists exactly where its builder has a recorder with its name and card |
| `RuntimeRuns.BuilderDone` | `pkg/client/cache.go:81-89` | before any call returns a client, the call that built it has finished recording that client's card |
| `RuntimeRuns.ReturnedMeansPublished` | `pkg/client/cache.go:81-97` | in a pod with nothing broken, from the moment any call returns a client for a name, every read of the hash file finds the name |
| `RuntimeRuns.PublishedAreBuilt` | `pkg/client/hash.go:107-118` | after an effective clear, every entry a reader finds is the hash of the card of a client some call of this process built for that name |
| `Agreement.RunKeepsAgreement` | `pkg/client/cache.go:81-89` | while no ForgetPeer drops a build with the hashes lock ahead of it, only the cached entry of a name may still record, and once recorded its record is the last of the name |
| `Agreement.FileMatchesCache` | `pkg/client/hash.go:96-120` | in a pod, nothing broken, no ForgetPeer of the name having taken out an entry whose build may still take the hashes lock: at every moment at which the cached client is finished, its published hash is that of the card it was built from |
| `Agreement.DropOverlaps` | `pkg/client/cache.go:110-117` | such a delete happens only while a call for the name is in flight |
| `Mismatch.DeleteIsSafeIff` | `pkg/client/hash.go:105-112` | at the delete of a ForgetPeer, a continuation with nothing breaking can come to publish a hash that is not the cached client's if and only if the delete takes out an entry whose build may still take the hashes lock |
| `Mismatch.DropCanMismatch` | `pkg/client/hash.go:105-112` | from every reachable unbroken state such a delete has a continuation to a mismatch, whatever the other calls are doing |
| `Mismatch.DropHappens` | `pkg/client/cache.go:110-117` | for every name a run comes to such a delete |
| `Mismatch.ToLock` | `pkg/client/cache.go:81-89` | every build that may still record can be brought to wait for the hashes lock, disturbing no other build |
| `Liveness.DeadlockFree` | `pkg/client/cache.go:73-98` | at every moment of every run some goroutine can step unless all calls, and all other readers of the topology, have returned, across all onces and locks; the holder of the client-map mutex can always go on |
| `Liveness.StepFalls` | `pkg/client/hash.go:107-119` | every step of a call, whatever fails in it, lowers one measure over all control points |
| `Liveness.BoundedWork` | `pkg/client/cache.go:72-117` | the calls of a run, and the other readers of the topology, take at most 300 steps each in total, however they interleave |
| `Liveness.CanFinish` | `pkg/client/cache.go:72-117` | from every reachable state the calls present can all return, with no new arrivals needed |
| `Topology.OneSnapshot` | `pkg/client/topology.go:48-66` | over any interleaving with changes of the file, the file is read at most once and every result, errors included, is what it was at that moment |
| `Topology.CachedForever` | `pkg/client/topology.go:59-66` | a loaded topology or load error is returned forever after |
| `Topology.FindPeerIsFirst` | `pkg/client/topology.go:107-111` | the lookup gives the first entry with the name |
| `Topology.ListedIffFound` | `pkg/client/topology.go:100-136` | Peers lists a name if and only if the lookup finds it |
| `Topology.Cache.LoadTopology` | `pkg/client/topology.go:61-83` | the first call reads, telling an absent, an unreadable and a malformed file apart; every later answer is the first one, whatever the file has become |
| `Topology.Cache.LookupPeer` | `pkg/client/topology.go:102-113` | the loop returns the first peer with the name, or not-found, or the load error |
| `Topology.Cache.PeerURL` | `pkg/client/topology.go:115-124` | the peer's URL, with the errors for no topology, no peer and no URL |
| `Topology.Cache.PeerNames` | `pkg/client/topology.go:126-136` | one name for each peer, in topology order, or the load error |
| `HeaderCheck.ValidateHeaders` | `pkg/client/headers.go:39-57` | in every iteration order, succeeds exactly when every name is letters, digits, '-', '_', '.' and does not start with grpc- in any case, every value is tab or printable ASCII, and no two names differ only in case, all by code point; then returns an equal map; an error is true of the headers |
| `HeaderCheck.LowerFolds` | `pkg/client/headers.go:49-50` | lower-cased names are equal exactly when the names differ at most in the case of ASCII letters |
| `HeaderCheck.LowerIsLower` | `pkg/client/headers.go:49` | no upper-case letter is left |
| `HeaderCheck.OrderIrrelevantIff` | `pkg/client/client.go:205-208` | the iteration order matters to the request exactly when two names that differ only in case carry different values |
| `HeaderCheck.AcceptedFields` | `pkg/client/client.go:205-208` | accepted headers reach the request unchanged, one case-insensitive field each, in any order |
| `PeerOptions.InsecureTLSPeers` | `pkg/client/client.go:97-105` | the loop returns the set of trimmed non-blank comma-separated segments |
| `PeerOptions.ListRoundTrip` | `pkg/client/client.go:97-105` | any trimmed comma-free names, joined by commas with any padding and blank segments, come back as exactly that set |
| `PeerOptions.EveryValueIsAList` | `pkg/client/client.go:97-105` | every value of the variable is such a list, so each returned name is non-empty, trimmed and comma-free |
| `PeerOptions.SplitJoin` | `pkg/client/client.go:99` | splitting undoes joining, for comma-free segments |
| `PeerOptions.SplitParts` | `pkg/client/client.go:99` | joining undoes splitting, and the segments have no comma |
| `PeerOptions.TrimPadded` | `pkg/client/client.go:100` | white space around a trimmed name is exactly what trimming removes |
| `PeerOptions.SpaceCodes` | `pkg/client/client.go:100` | white space is the code points Unicode gives that property |
| `PeerOptions.SkipsTLSVerify` | `pkg/client/client.go:110-116` | verification is skipped for peers of kind Managed or none always, and for any other exactly when the list names them |
| `PeerOptions.UserOptionsOverride` | `pkg/client/client.go:214-229` | the caller's options all arrive, in order and last, after three defaults only when verification is skipped; each protocol gets the caller's last setting if any, otherwise the default |
| `Lifecycle.NextInv` | `pkg/server/server.go:98-183` | every step of Start and of the serve goroutines keeps the invariant over listeners, goroutines, messages and result |
| `LifecycleRuns.NothingLeaks` | `pkg/server/server.go:98-183` | on every exit path no listener is open, no serve goroutine is left, and each launched one sent one result that was received |
| `LifecycleRuns.ChannelNeverBlocks` | `pkg/server/server.go:138-152` | the two-slot channel never makes a serve goroutine wait |
| `LifecycleRuns.ReturnsNilIff` | `pkg/server/server.go:154-183` | Start returns nil exactly when it was cancelled, Shutdown reported no error and both serve results were clean |
| `LifecycleRuns.ReturnsWhich` | `pkg/server/server.go:156-183` | the error returned is the failed Serve's, the failed Shutdown's, or after a good shutdown the first a serve goroutine reported |
| `LifecycleRuns.AdvertisesBeforeServing` | `pkg/server/server.go:98-117` | before it launches a serve goroutine Start has done every step of opening both listeners, in order, and advertised itself if and only if the HTTP listener is a Unix socket |
| `LifecycleRuns.FailedStart` | `pkg/server/server.go:98-117` | a Start that never serves returns the error of the acquiring operation that failed, with no listener open |
| `LifecycleRuns.DownBeforeStop` | `pkg/server/server.go:156-176` | cancelled: readiness goes down, then the HTTP server is shut down gracefully, then the gRPC server, gracefully only if that went well; serve failed: both are closed at once and nothing takes readiness down |
| `LifecycleRuns.ComesUp` | `pkg/server/server.go:98-154` | if every operation works and nobody cancels, Start comes to serve on both listeners |
| `LifecycleRuns.ServeFailureReturns` | `pkg/server/server.go:156-161` | a fresh Start comes to serve, and if then either Serve fails it returns that very error with readiness never taken down |
| `LifecycleRuns.CloseHasCause` | `pkg/server/server.go:163-176` | a listener in use closes only after readiness went down, because its Serve failed, or because a serve failure ended the process |
| `LifecycleRuns.Progress` | `pkg/server/server.go:154-183` | Start is never stuck: unless it returned or is healthily serving, one of its three goroutines can step |
| `LifecycleRuns.ShortRuns` | `pkg/server/server.go:98-183` | no run has more than 28 steps |
| `LifecycleRuns.CancelledReturns` | `pkg/server/server.go:163-183` | from any reachable cancelled state Start's own steps lead to its return |
| `Listeners.NewListener` | `pkg/server/listener.go:75-96` | success has made the directory, removed a stale socket, listened and set the mode for a Unix socket, only listened for any other, and returns the listener open; an error is one failed step with none after it, and no produced listener open |
| `Listeners.OpenBoth` | `pkg/server/server.go:98-117` | both listeners come back open and distinct with every step done and server-info written exactly for a Unix-socket HTTP listener, or one step failed and every listener produced has been closed |
| `Health.Health.SetServing` | `pkg/server/health.go:58-70` | uninterrupted, true leaves both surfaces SERVING and false leaves both NOT_SERVING |
| `Health.AnswersAfter` | `pkg/server/health.go:55-102` | whatever the start and the order of attaching, SetServing(true) gives 200 and SERVING, SetServing(false) 503 and NOT_SERVING |
| `Health.Health.Attach` | `pkg/server/health.go:79-86` | uninterrupted, a new gRPC surface starts out showing the current status |
| `Health.FirstAnswers` | `pkg/server/health.go:35-53` | the zero value answers 503 and shows UNKNOWN on an attached gRPC surface; one from NewHealth answers 200 and shows SERVING |
| `Health.Health.HttpHandler` | `pkg/server/health.go:90-102` | 200 if and only if the status is SERVING |
| `Health.AgreementIff` | `pkg/server/health.go:49-86` | for any discipline saying which call may arrive while which is in flight: both surfaces show the status last set whenever no call is in flight, in every run that obeys it, if and only if it lets no two different calls overlap |
| `Health.SurfacesShowWhatWasSet` | `pkg/server/health.go:58-86` | under any overlap the HTTP surface and every gRPC surface ever made show the initial status or one some call was given |
| `Health.Disagreement` | `pkg/server/health.go:63-85` | any two different calls, let overlap, can leave the surfaces apart with no call in flight |

## Left out

- a2a-go, gRPC, HTTP, TLS and logging internals, and AgentCard parsing: a build is a client and a card, or an error.
- SHA-256 and the JSON canonicalisation of RFC 8785 in `hashAgentCard`: one opaque function of the card that may fail.
- `buildStack`, `resolveListener`, `SDKVersion`, the nil checks and `With...` options of `Start`, examples and manifests: plumbing with single-branch facts.
- `ResolveAgentCard` past its topology lookup, and `noRedirectClient`: calls into the HTTP client with no state of their own.
- The `reset...` helpers: test-only, and they replace a once that may be in use.
- A change of the environment variable in the middle of one build: `skipsTLSVerify` is evaluated several times per build; the model gives it one value per evaluation and says nothing across them.
- A hash file holding the JSON value `null`, which decodes to a nil map: the model's decoder yields a map or an error.
- Two processes writing one hash file: the mutex and the clear are per process.
- Contexts and deadlines: Shutdown meets or misses its deadline by the environment's choice, and `GracefulStop` is assumed to end.
- HTTP connections still open after a failed Shutdown: only listeners, goroutines and results are counted.
- Lower-casing beyond ASCII: it is only applied to names that already match the ASCII name pattern.
- Listeners and FileSystem are the sequential bodies; interleavings are in Lifecycle and HashFile, where listeners and files are values, without object identity.
- RuntimeRuns.ReturnedMeansPublished: says that the name is published, not which hash; that is Agreement.FileMatchesCache, for clients still cached. The record of a client no longer cached may have been replaced.
- Mismatch.DeleteIsSafeIff: exact about what can follow one delete, the first of its kind for the name in the run; not every schedule after such a delete ends in a mismatch.
- Liveness.CanFinish: a schedule exists; that a fair scheduler reaches it follows from Liveness.DeadlockFree and Liveness.BoundedWork but fairness itself is not modelled.
- PeerClients.PeerClients.PeerClientWithCardHeaders: the method is the call without interference; PeerCache has the interleavings.
