# Vidcast: verified models

Dafny models of the parts of Vidcast where several functions, several pods or two
services have to agree, with proofs about every run of them. `dafny verify dfyconfig.toml`
checks all of it.

| files | part of the system |
|---|---|
| `Routing`, `HubModel`, `ChatSystem`, `ChatInvariant`, `ChatTheorems`, `ChatDelivery` | the chat fan-out protocol: any number of pods, rooms, room incarnations and clients, over Redis pub/sub |
| `Hub`, `HubSimulation`, `PodProcess` | the chat hub as classes, and why the objects of a pod go through runs of the protocol |
| `RateLimit`, `RateLimitTheorems`, `RateBound`, `RetryAfter`, `RateLimiter` | the fixed-window rate limiter with lockout: runs on values, and the classes that refine them |
| `LoginFlow` | login over its two limiters, with concurrent requests |
| `Completions`, `AdvisoryLock`, `Migrations`, `UpgradeToHead` | database migration by many pods under one advisory lock |
| `StreamKeys`, `StreamStore` | stream keys, their two indexes, and the MediaMTX webhooks |
| `FollowGraph` | follows and their paginated listings |
| `Paths`, `CleanPath`, `ObjectKeys` | the bucket keys the recorder writes and the streams service reads back |
| `Common`, `Rounding`, `Sorting`, `StringOrder` | helpers |

## How the parts are modelled

**Chat.** `ChatSystem` is a transition system. A section that holds `Hub.mu` is one step.
`join` is two steps, since it subscribes after the mutex is released; receiving a message
and broadcasting it are two steps, since the callback takes the mutex only then. A closed
or cancelled subscription may still have a message in hand. Redis has one log per shard
and channel, delivers to a subset of the live subscriptions of a channel, may lose any
queued message, and does not reorder. All pods are configured with the same list of
shards. `panicked` records a send on a closed channel or a second close. The class `Hub` is
specified by the same functions of `HubModel` that the steps apply. `HubSimulation` shows
that numbering its objects turns each method into the step of the same name; `PodProcess`
extends this to runs, and derives what the methods require, that no channel sent on or
closed is closed already, from the order of the steps.

**Rate limiter.** Times are real numbers. The clock is read before the lock is taken
(services/users/app/rate_limit.py:50-51); the model assumes that times do not decrease in
the order in which the lock is taken. `Every(n)` sweeps on each n-th check, `Never` is a
limiter without eviction. The classes `RateLimiter`, `Store` and `Service` keep a history of
the calls made on them, and their state is that of the run model after this history.

**Login.** Each call on a limiter is a step and any number of requests may be in progress.
`str.lower` is a parameter. Looking the user up and verifying the password touch no shared
state; their outcome is a parameter.

**Migrations.** Every statement sent to the database is a step of its pod. Statements may
fail, whether or not the server carried them out, connections may be lost, and the server
may end a session, at any point. There is one session-level lock, one transaction per
session, and DDL is transactional. The revisions form one chain, of which every pod ships
a beginning; in a rollout these may differ, and a pod that finds a revision it does not
ship cannot upgrade. `Completions` gives Python's try, finally and except statements as
combinators on completions. An `Exit` (KeyboardInterrupt, SystemExit) is one that
`except Exception` does not catch.

**Stream keys.** SHA-256 is injective and a generated key never occurs twice. Each webhook
handler is one step.

**Object keys.** Go's `path.Clean`, `path.Join` and `filepath.Base` are modelled in full,
for a slash as separator. A bucket lists keys in ascending order, page by page.

## Where the code and its comments differ

- services/vod-recorder/env.go:87-97 says that traversal components are rejected. The guard
  looks only for separators, so the paths `.` and `..` pass, and so do the slugs `.`, `..` in
  the reader (services/streams/recordings_handler.go:71). `ObjectKeys.ListedExactlyWhen` says
  exactly what is listed, for all accepted segments and slugs, and
  `ObjectKeys.AgreementExactlyWhen` that writer and reader agree on a slug, for segments with
  an ordinary file name, if and only if it is not empty, `.` or `..`.
- services/streams/mediamtx_handler.go:82-86 presents the bare slug as a fallback that always
  serves the password convention. The lookup by key comes first, so it works if and only if
  the slug is not the current key of another channel; otherwise it turns that other channel
  off (`StreamKeys.BareSlugResolves`). `StreamKeys.BareSlugCanMiss` gives a run with keys of
  the form that is issued after which a channel stays listed as live.
- services/users/app/migrations.py:85-87 says that cleanup failures do not mask the migration
  error. `except Exception` lets an Exit through, so this holds if and only if no other Exit
  interrupts the cleanup (`Completions.FirstFailureEscapesExactlyWhen`);
  `Migrations.ExitCanMaskError` is a run in which one does. In this service the function runs
  on an executor thread (services/users/app/main.py:16), to which KeyboardInterrupt is not
  delivered, so only a SystemExit raised inside a call, or another caller, can cause it.
- services/users/app/migrations.py:88-92 invalidates the connection lest a pooled one keep the
  lock. The query for the lock at line 69 precedes the try block, so nothing unlocks or
  invalidates when it raises after the server has granted the lock and the connection survives,
  as under a statement timeout or a cancelled query. `Migrations.GrantedQueryCanRaise` is such
  a run; `Migrations.LockIsKeptExactlyWhen` says exactly when a finished pod keeps the lock.

## Model

| member | source | states |
|---|---|---|
| Routing.RouteInjective | services/chat/broker.go:29-51 | two rooms never share a publish log, even when the hash sends them to one shard |
| Routing.ShardFollowsHash | services/chat/broker.go:36-47 | the shard is the remainder of the hash, for every number of shards, and in range |
| Routing.Fnv1aValues | services/chat/broker.go:40-42 | the hash is 32-bit FNV-1a: its published values for two inputs |
| Routing.PrefixSpelled | services/chat/broker.go:10 | channel names begin with chat:room: |
| HubModel.LeaveUndoesJoin | services/chat/hub.go:47-81 | leaving right after joining restores the rooms and their clients; a room the join opened remains only as a detached, empty, cancelled object |
| Hub.Client.TrySend | services/chat/hub.go:105-108 | appends if there is space, drops otherwise, and changes nothing else |
| Hub.Client.Close | services/chat/handler.go:101 | closing keeps what is buffered |
| Hub.Client.Receive | services/chat/handler.go:46 | one round of the writer on an open or closed channel: the oldest payload, if any, and nothing else |
| Hub.Client.Drain | services/chat/handler.go:43-54 | once the channel is closed, the writer writes the buffer in order, up to the first failed write, and then ends |
| Hub.Hub.Join | services/chat/hub.go:47-61 | the locked section of join: whole new state, and that a room object is created exactly for a free name |
| Hub.Hub.Leave | services/chat/hub.go:68-81 | the last client to leave cancels the subscription and frees the name; otherwise only the client goes |
| Hub.Hub.BroadcastLocalRoom | services/chat/hub.go:101-110 | in any iteration order, the payload is appended once to every client of the room with space; no other client changes |
| Hub.Hub.BroadcastLocal | services/chat/hub.go:87-95 | the same by name, and nothing for an unknown name, if nothing comes between lookup and broadcast |
| ChatTheorems.LookupMayBeStale | services/chat/hub.go:87-95 | if something does come between them, the room found is still the one in the map, or nobody is in it and nothing happens |
| HubSimulation.MethodsMatchSteps | services/chat/hub.go:68-110 | leave, broadcast, close and the receive of a writer on hub objects are the protocol steps under any one-to-one numbering |
| HubSimulation.JoinMatchesStep | services/chat/hub.go:47-61 | join by a new client is the register step, whether it enters or opens the room |
| HubSimulation.ReachableHubIsSafe | services/chat/handler.go:97-101 | in every reachable state the hub objects meet what broadcast and close require: no member of any room object is closed, no client is closed twice |
| PodProcess.RunIsSimulated | services/chat/handler.go:40-102 | over every run of all pods, the objects of a pod that follow it, from a new hub on, stand for the pod in each state |
| PodProcess.Start | services/chat/hub.go:39-45 | a new hub of objects stands for a pod at the start of any run |
| PodProcess.Join | services/chat/handler.go:40-41 | a new connection on the objects is a register step with new numbers |
| PodProcess.Leave | services/chat/handler.go:100 | leave on the objects is the leave step of the connection |
| PodProcess.Close | services/chat/handler.go:101 | close never meets a closed channel, and is the close step |
| PodProcess.Deliver | services/chat/hub.go:63-65 | the callback never sends on a closed channel, and is the broadcast step |
| PodProcess.Receive | services/chat/handler.go:46 | what the writer receives is the message the protocol says, on an open or closed channel |
| ChatInvariant.StepKeepsInv | services/chat/hub.go:47-110 | every step of every pod, and every publish, keeps the whole invariant: rooms, members, channels, pipelines, order |
| ChatTheorems.AcceptedIsSubsequence | services/chat/broker.go:49-73 | in every reachable state what a client was given is a subsequence of the log of its own room, each entry at most once, in order |
| ChatTheorems.SameOrderEverywhere | services/chat/broker.go:56-73 | two clients of a room, on any pods, never see two messages in opposite orders |
| ChatTheorems.WrittenStaysInRoom | services/chat/handler.go:82-94 | what reaches a socket is a prefix of what was accepted and was published to that client's room |
| ChatTheorems.PipelineIsLossless | services/chat/handler.go:40-54 | accepted = written + in flight + buffered until a write fails, all of it written if none does; at most 16 are buffered |
| ChatTheorems.SixteenAreBuffered | services/chat/handler.go:40 | in every reachable state a member with fewer than 16 messages buffered accepts the one being broadcast, at the end; it is missed exactly at 16 |
| ChatTheorems.ConnectionCanGoOn | services/chat/handler.go:40-102 | from each place of its handler a connection can go on, and the writer whenever something is buffered or the channel is closed, open channels included |
| ChatTheorems.CancelledSubscriptionCanEnd | services/chat/broker.go:62-72 | a cancelled subscription was started and can end, after the message in hand at the latest |
| ChatTheorems.EnvironmentIsFree | services/chat/broker.go:56-73 | losses, ends of subscriptions, write errors and deliveries are unrestricted; exactly the empty room is refused |
| ChatDelivery.EntriesAreConserved | services/chat/broker.go:56-73 | over every run, what waited in a subscription or was queued there is what waits, was lost or was broadcast |
| ChatDelivery.PublishedEntryIsAccountedFor | services/chat/broker.go:49-73 | after any run, a message delivered to a subscription waits there, was lost there or was broadcast there: exactly one of these, exactly once |
| ChatDelivery.AcceptedExactlyWhenOffered | services/chat/hub.go:101-110 | after any run, a client has accepted it exactly as often, at most once, as it was in the room with space when it was broadcast |
| ChatDelivery.DeliveryHappens | services/chat/handler.go:13-18 | such a delivery is reachable for every room and message: the first client of a room publishes to its own subscription |
| ChatDelivery.WaitingEntryCanMove | services/chat/broker.go:62-72 | a waiting message is never stuck: its subscription can receive or broadcast |
| ChatDelivery.SenderHearsItself | services/chat/handler.go:13-18 | whenever its message is broadcast on its own pod, the sender is still in that room object unless it has left, and accepts the message if it has space |
| ChatTheorems.NeverPanics | services/chat/handler.go:97-102 | under no interleaving is a closed channel sent on or closed again |
| ChatTheorems.ClosedClientIsNowhere | services/chat/handler.go:97-101 | a client whose channel is closed is in no room object, attached or detached |
| ChatTheorems.LateCallbackReachesNobody | services/chat/hub.go:97-110 | a callback of a cancelled incarnation changes no client, the ones of a new room of that name included |
| ChatTheorems.OneContextPerRoom | services/chat/hub.go:28-31 | a name in the map has exactly one uncancelled subscription context and a client; any other name has none |
| ChatTheorems.SubscribeFindsLiveRoom | services/chat/hub.go:57-66 | though made outside the mutex, subscribe is never called for a room torn down meanwhile, nor twice for one room |
| ChatTheorems.WriterEndsAfterClose | services/chat/handler.go:100-102 | after close the writer makes at most 17 writes and 34 steps in any run and is never stuck before it returns |
| RateLimiter.Bucket.Attempt | services/users/app/rate_limit.py:58-75 | bucket and verdict after one attempt, over lockout, expired lockout, expired window and exceeded budget |
| RateLimiter.RateLimiter.DiscardStale | services/users/app/rate_limit.py:89-96 | exactly the stale keys go, and no other bucket is replaced |
| RateLimiter.RateLimiter.EvictStale | services/users/app/rate_limit.py:85-96 | the table after eviction, sampled by the counter |
| RateLimiter.RateLimiter.Check | services/users/app/rate_limit.py:49-75 | verdict and table are those of the run model; over any sequence of calls the table stays the one after the logged calls |
| RateLimiter.RateLimiter.CheckInOrder | services/users/app/rate_limit.py:49-96 | on the object, after any calls at times that do not decrease: the verdict is decided by the logged calls on the key alone, though others swept; over budget it is lockout_seconds, during a lockout what is left |
| RateLimiter.RateLimiter.Reset | services/users/app/rate_limit.py:77-79 | the key is forgotten, present or not |
| RateLimiter.RateLimiter.ResetAll | services/users/app/rate_limit.py:81-83 | every key is forgotten, the eviction counter is kept |
| RateLimitTheorems.AnswerFromOwnHistory | services/users/app/rate_limit.py:49-96 | each verdict is a function of the calls that concern its key, whatever was swept |
| RateLimitTheorems.EvictionIsInvisible | services/users/app/rate_limit.py:85-96 | all answers of a run are the same for every sample size and for a limiter that never evicts |
| RateLimitTheorems.KeysDoNotInterfere | services/users/app/rate_limit.py:49-96 | the answers to a key are those in the run with all calls on other keys removed |
| RateLimitTheorems.BucketsAreOk | services/users/app/rate_limit.py:61-75 | count is at most the budget plus one, over budget exactly when locked, and a lockout ends before window start + window + lockout |
| RateLimitTheorems.StoredKeysAreRecent | services/users/app/rate_limit.py:85-96 | a stored key is one of at most sample-size keys checked since the last sweep, or its window opened at most max(2 window, window + lockout) before it |
| RateLimitTheorems.SweepTakesExactly | services/users/app/rate_limit.py:85-96 | a check takes another key's bucket exactly if it sweeps and that one is not locked and opened its window over two windows ago |
| RateBound.AdmittedIsBounded | services/users/app/rate_limit.py:58-75 | without a reset, at most max_attempts (1 + ceil(span / min(window, lockout))) checks of a key pass in any span |
| RateBound.BoundMeans | services/users/app/rate_limit.py:58-75 | the bound, written out for every span and any settings |
| RateBound.TwiceTheBudget | services/users/app/rate_limit.py:24-30 | at most twice the budget in a span no longer than the window, if the lockout is no shorter |
| RetryAfter.RetryAfterIsExact | services/users/app/rate_limit.py:58-75 | before the time named by retry_after every check fails without prolonging the lockout; the first one from then on passes and opens a window |
| RetryAfter.FreshWindowHasFullBudget | services/users/app/rate_limit.py:61-75 | a fresh window admits exactly max_attempts checks |
| RetryAfter.ExceedingLocksForLockout | services/users/app/rate_limit.py:73-75 | the check that exceeds the budget is rejected for exactly lockout_seconds |
| RetryAfter.LockoutLastsExactly | services/users/app/rate_limit.py:58-75 | from that check on the key is refused, with what is left, before lockout_seconds have passed, and passes from then on |
| RetryAfter.ExpiredKeyStartsAfresh | services/users/app/rate_limit.py:54-75 | a key without a bucket, with an expired window or an expired lockout opens a window at its next check |
| RetryAfter.HeaderSuffices | services/users/app/routers/auth.py:44-52 | waiting the whole seconds of the Retry-After header (section 10.2.3 of RFC 9110) always suffices and is less than a second too long |
| LoginFlow.Enforce | services/users/app/routers/auth.py:44-52 | a rejection becomes its header, a pass none; the limiter moves as for check |
| LoginFlow.EnforceBoth | services/users/app/routers/auth.py:95-98 | the username limiter is untouched when the IP limiter rejects |
| LoginFlow.Login | services/users/app/routers/auth.py:93-124 | response and both tables for all four outcomes; both keys are cleared only on success |
| LoginFlow.VerificationsAreBounded | services/users/app/routers/auth.py:93-124 | without a successful login of a username, its password verifications admitted in a span obey the limiter's bound, from any number of IPs and in any interleaving |
| LoginFlow.IpRejectionCostsNoBudget | services/users/app/routers/auth.py:97-98 | a request stopped by the IP limiter never touches the username limiter, then or later |
| LoginFlow.PasswordDecides | services/users/app/routers/auth.py:110-124 | over every run, a request gets a token, or is on the way to it, exactly if its right password was verified after the username limiter admitted it, and 401 exactly if a wrong one was |
| LoginFlow.OnlySuccessClears | services/users/app/routers/auth.py:119-123 | over every run, a budget is cleared only for such a right password |
| LoginFlow.StepsMatchLogin | services/users/app/routers/auth.py:93-124 | the steps of one request in a row give the response and both tables of the contract of Login, in all four cases |
| LoginFlow.SuccessRestoresBudget | services/users/app/routers/auth.py:119-124 | after a success, which was a right password, the next attempt on that username passes its limiter, whatever failed before |
| LoginFlow.SuccessRestoresIpBudget | services/users/app/routers/auth.py:119-122 | the same for the IP address |
| UpgradeToHead.AcquireAdvisoryLock | services/users/app/migrations.py:21-43 | at most ceil(timeout / retry) + 1 attempts with anything in between; returns only holding the lock; times out only after the full timeout, and only if every attempt, each a step of the run, found the lock with another session; the wait is logged iff the first one did |
| AdvisoryLock.BoundIsTight | services/users/app/migrations.py:28-43 | the bound is met when sleeps are exact and the lock is never free |
| Migrations.OneMigrationAtATime | services/users/app/migrations.py:55-79 | while a working session is between lock and unlock, no other one is and no other transaction has applied anything |
| Migrations.OneOpenTransaction | services/users/app/migrations.py:55-56 | at any time at most one pod, connected or not, has uncommitted work |
| Migrations.EachRevisionOnce | services/users/app/migrations.py:70-73 | the committed revisions are 1, 2, ..., each once, in order, none that no pod ships |
| Migrations.NormalReturnMeansHead | services/users/app/migrations.py:66-83 | a normal return means the database is at the pod's head or later, for good; if all pods ship the same, at exactly this head, and nothing is applied any more |
| Completions.FirstFailureEscapesExactlyWhen | services/users/app/migrations.py:70-104 | the error of lock, migration or commit escapes the nested try statements if and only if no other Exit interrupts the cleanup |
| Completions.CleanupMasksWithoutExcept | services/users/app/migrations.py:81-92 | without the inner except every cleanup failure would escape in its place |
| Migrations.FirstErrorEscapes | services/users/app/migrations.py:66-104 | in every run, what escapes from a pod is the program text applied to its calls, hence the first error under the same condition |
| Migrations.LockIsKeptExactlyWhen | services/users/app/migrations.py:66-104 | a finished pod whose session works keeps the lock if and only if the query for it raised although granted, or the cleanup failed before an unlock took effect and the invalidate failed too or was prevented by an Exit |
| Migrations.GrantedQueryCanRaise | services/users/app/migrations.py:69 | a one-step run after which a pod has finished with an error, its connection works and it holds the lock |
| Migrations.LeftLockBlocksAll | services/users/app/migrations.py:22-27 | in every run, a lock left behind stays with its pod until the server ends that session |
| Migrations.RaisedCommitMayStand | services/users/app/migrations.py:73 | a commit that raises leaves the database at the head of its pod or as it was |
| Migrations.RaisedRollbackMayStand | services/users/app/migrations.py:82 | a rollback that raises has discarded the work or not, and never commits any |
| Migrations.SessionsCanBeLost | services/users/app/migrations.py:84-96 | connections and sessions can be lost at any point, and what that does to lock, work and revisions |
| Migrations.ExitCanMaskError | services/users/app/migrations.py:81-84 | a run in which an Exit during the rollback replaces the error of the migration |
| UpgradeToHead.Migrate | services/users/app/migrations.py:70-73 | upgrade and commit, with any steps of others and any loss of the session between the statements: on a session that lasts and without a newer revision, exactly the error of the upgrade or the commit |
| UpgradeToHead.CleanUp | services/users/app/migrations.py:74-104 | under the same conditions: the completion by the nested try statements, the lock given up or the connection invalidated, nothing committed taken back |
| UpgradeToHead.UpgradeToHead | services/users/app/migrations.py:66-104 | the whole function among any other pods and failures is a run of the protocol; on a session that lasts and without a newer revision the program text of the calls escapes; head on a normal return; exactly when the lock is kept; without faults only a lock held at every attempt can stop it |
| StreamKeys.IndexesStayInStep | services/streams/store.go:44-116 | over every run byKeyHash is the exact inverse of slug to key hash |
| StreamKeys.FindByKeyIsLatestKey | services/streams/store.go:130-140 | a key resolves to a slug exactly when it is the latest one issued for it and the slug was not revoked since |
| StreamKeys.SupersededKeyIsDead | services/streams/store.go:81-116 | a superseded or revoked key never resolves again, for any channel |
| StreamKeys.ReturnedKeyResolves | services/streams/store.go:64-101 | the key a creation or rotation returns resolves to the channel and its former one to nothing; each error exactly in its case |
| StreamKeys.AcceptedExactlyWhen | services/streams/mediamtx_handler.go:41-60 | after any requests, a publish is answered 200 exactly if the key it presents is the latest one of a channel not revoked since; other actions always are and change nothing |
| StreamKeys.LiveIsLastPublish | services/streams/mediamtx_handler.go:43-96 | a channel is live exactly if its last authorised publish, resolving unpublish or revocation was a publish |
| StreamKeys.UnpublishByEmbeddedKey | services/streams/mediamtx_handler.go:64-96 | the path that authorised a publish by embedded key turns off exactly that channel if its key was kept |
| StreamKeys.BareSlugResolves | services/streams/mediamtx_handler.go:82-96 | a bare slug resolves to its channel if and only if it is no other channel's current key; unpublishing then turns off exactly this channel, otherwise exactly the other one |
| StreamKeys.NamedLikeAKey | services/streams/mediamtx_handler.go:87-96 | in every reachable store, unpublishing a channel named like another one's current key leaves it as live as it was |
| StreamKeys.NameMeetsKey | services/streams/mediamtx_handler.go:43-96 | for any two names and a key, four requests lead from the empty store to that case, with a channel left live |
| StreamKeys.BareSlugCanMiss | services/streams/store.go:171-178 | such a run exists with keys of the form generateKey issues |
| StreamKeys.LastPathSegmentIsLast | services/streams/mediamtx_handler.go:98-104 | the segment is a slash-free stretch with a slash or nothing before it and only slashes after it |
| StreamStore.Store.CreateKey | services/streams/store.go:64-79 | both indexes and the result, for a taken slug, a failing random source and a new key |
| StreamStore.Store.RotateKey | services/streams/store.go:84-101 | the old hash is dropped and the new one filed; a failing random source changes nothing |
| StreamStore.Store.RevokeKey | services/streams/store.go:105-116 | record and hash go together; an unknown slug is an error |
| StreamStore.Store.FindByKey | services/streams/store.go:132-140 | the lookup; after any requests on the object, a slug exactly if the key is the latest one issued for it and it was not revoked since |
| StreamStore.Store.SetLive | services/streams/store.go:144-154 | only the flag of that channel changes; an unknown slug is an error |
| StreamStore.Store.ListLive | services/streams/store.go:157-169 | exactly the live channels, strictly ascending, whatever the iteration order; after any requests on the object, those whose last publish was not unpublished or revoked |
| StreamStore.ListingIsUnique | services/streams/store.go:167 | those two properties allow only one listing |
| StringOrder.LessIsLexicographic | services/streams/store.go:167 | the order of the listing: the first difference decides, and a proper prefix comes first |
| StreamStore.Store.AuthWebhook | services/streams/mediamtx_handler.go:43-60 | status and store after an auth request, with the key in the password or in the path; after any requests on the object, 200 for a publish exactly with a latest key |
| StreamStore.Store.UnpublishWebhook | services/streams/mediamtx_handler.go:73-96 | the store after an unpublish, resolvable or not |
| FollowGraph.NoSelfOrDanglingEdge | services/users/app/routers/users.py:36-58 | over every run no one follows themselves and no edge outlives a user, though users may vanish between lookup and insert |
| FollowGraph.EdgeSinceFirstFollow | services/users/app/routers/users.py:42-71 | an edge exists exactly if a follow created it and no unfollow or user deletion came after; repeated follows never change its creation time |
| FollowGraph.ListingIsDetermined | services/users/app/routers/users.py:82-90 | the order by creation time and user id fixes the list, however the database scans the table |
| FollowGraph.ListingHasEachUserOnce | services/users/app/routers/users.py:82-111 | the list has exactly the users joined by an edge, each once |
| FollowGraph.FollowersAndFollowingConverse | services/users/app/routers/users.py:74-111 | u is among the followers of v exactly if v is among those u follows |
| FollowGraph.PagesPartitionListing | services/users/app/routers/users.py:86-89 | on a fixed table the pages at 0, limit, 2 limit, ... make up the list, for every limit |
| FollowGraph.EmptyPageMeansAllSeen | services/users/app/routers/users.py:74-91 | paging until an empty page has shown the whole list |
| FollowGraph.ListingByTimeThenId | services/users/app/routers/users.py:86-106 | earlier follows are listed first, and of simultaneous ones the lower user id |
| FollowGraph.ListUsersAnswers | services/users/app/routers/users.py:74-111 | 422 exactly outside the bounds, 404 exactly for an unknown name, and otherwise limit users of the whole list from offset on, or what there is |
| FollowGraph.EndpointsPartitionListing | services/users/app/routers/users.py:74-111 | the answers for the pages of any permitted size, put together, are the whole list, each user once |
| FollowGraph.Service.FollowUser | services/users/app/routers/users.py:30-58 | 404 exactly for a missing name or user, 400 exactly for oneself, 204 exactly otherwise, when the edge is there, with its old time if it was before |
| FollowGraph.Service.UnfollowUser | services/users/app/routers/users.py:61-71 | table and status; 204 means the edge is gone, and no other row changes |
| FollowGraph.Service.EdgesAreOpenFollows | services/users/app/routers/users.py:42-71 | after any requests on the object, its edges are the follows that nothing has ended since, and it is consistent |
| CleanPath.CleanIsIdempotent | services/vod-recorder/uploader.go:49-51 | the cleaning done by the join has nothing left to clean |
| CleanPath.NothingAboveRoot | services/vod-recorder/uploader.go:49-51 | .. at the root changes nothing |
| CleanPath.EmptyCases | services/vod-recorder/uploader.go:49-51 | what joins, cleaning and base names of nothing come to |
| ObjectKeys.KeyShape | services/vod-recorder/uploader.go:49-51 | the key for every slash-free path and every local path, those that cleaning removes included |
| ObjectKeys.AcceptedExactlyWhen | services/vod-recorder/env.go:91-115 | a segment is accepted exactly if both variables are set and its path has neither a slash nor a backslash, and carries their values; likewise the slugs of the reader |
| ObjectKeys.OrdinaryKey | services/vod-recorder/uploader.go:45-51 | recordings/path/file, and the prefix recordings/slug/ |
| ObjectKeys.PrefixShape | services/streams/s3client.go:95 | the listing prefix for every slash-free slug |
| ObjectKeys.ListedExactlyWhen | services/streams/s3client.go:91-99 | for all accepted segments and slugs, exactly when the one is listed under the other |
| ObjectKeys.AgreementExactlyWhen | services/vod-recorder/env.go:87-115 | writer and reader agree on a slug if and only if it is not empty, "." or ".." |
| ObjectKeys.KeysAreInjective | services/vod-recorder/uploader.go:45-51 | different paths or file names never share a key |
| ObjectKeys.BaseOfFile | services/vod-recorder/uploader.go:50 | the file name is the base name, in whatever directory |
| ObjectKeys.ListingFindsOwnSegments | services/streams/s3client.go:91-99 | after any uploads, the keys under the prefix of a slug are exactly those of its own segments that have a file name |
| ObjectKeys.ListingReadsBackRecordings | services/streams/s3client.go:91-114 | through the pages too, a slug's listing is the keys of its own segments, each once, in ascending order |
| ObjectKeys.ListRecordings | services/streams/s3client.go:94-115 | for every page size, all keys with the slug's prefix in order, or an error exactly if one of the pages fails |

## Left out

- HTTP, JSON, WebSocket, Redis, S3, SQLAlchemy and Alembic client calls: only their effect on logs, queues, the lock, tables and the bucket is modelled.
- Timeouts, ping and pong, and context deadlines of the chat handler: a read error, a write error and the end of a subscription may happen at any time instead.
- Shutdown of a chat pod and of the hub context: a subscription may end at any time, but a pod does not disappear.
- A failed publish, logged at services/chat/handler.go:92-94, is a message that never enters the log.
- The username, send time and JSON form of a chat message: a message is its room and body.
- Receivers waiting on a channel when it is sent to: the writer takes from the buffer in a step of its own.
- The message channel inside the Redis client is part of the queue of a subscription, which may lose messages.
- The distribution of the FNV-1a hash: only its determinism and range matter.
- Simultaneous limiter checks whose clock readings are reordered relative to the lock: excluded by the assumption on times.
- Floating point in the limiter and the polling loop: real arithmetic.
- get_client_ip and the register endpoint, which makes one limiter check and one insert.
- The placeholder for passwords over 72 bytes: the outcome of the comparison is a parameter.
- LoginFlow.VerificationsAreBounded: counts a verification at the time the username limiter admits it; one that starts later runs later, which the limiter does not restrict.
- Hub.Hub.BroadcastLocal: lookup and broadcast in one step; ChatTheorems.LookupMayBeStale covers the mutex being released in between.
- Hub.Client.Drain: the writer's loop after the close; while the channel is open its rounds are Hub.Client.Receive and the writer steps of ChatSystem.
- SQLite, for which upgrade_to_head takes no lock.
- The connection pool: whether a connection that was closed with the lock is reused, recycled or dropped is up to the steps that disconnect it or end its session.
- Migrations with branches or several heads: revisions are a single chain.
- An auth webhook whose FindByKey and SetLive are separated by another request: each handler is one step.
- Malformed JSON bodies of the webhooks, and the channel and stream-key endpoints around the store.
- Key generation: fresh keys and an injective hash are assumed.
- An IntegrityError of a follow that is neither a duplicate nor a missing user, which is raised again and changes nothing.
- Presigned URLs, content types, sizes and times of recordings, and the parsing of the segment duration.
- Path separators other than a slash.
- Settings, schemas, health endpoints, the echo service, Helm charts, Terraform and Dockerfiles: single facts or configuration.
