# mtlogin: model and proofs

`mtlogin` keeps an account of a site alive: on a schedule it resolves an identity (token, device id,
visitor id, account), walks through a session of requests with it, lets the server rotate the device
id, writes the identity back under an epoch guard, purges it when the server denies it, logs in again
if it is told to, and reports every run. The process can be shut down at any moment.

Two models cover this.

**The identity lifecycle.** Everything outside the program is one arbitrary tape of answers
(`World.World.tape`): every HTTP answer, transport error, disk error, reset by another client of the
store, random string and random choice. A claim about every tape is a claim about every behaviour of
server, disk and other clients. A world also keeps the traces a run leaves: requests with their
answers, store events, messages. `BrowseSpec`, `AuthSpec` and `RefreshSpec` give the steps of the
program as functions of a world; `LevelDBStore`, `Session`, `Client`, `AuthManager` and `Service` are
the program's objects, with mutable fields and loops, each method proved to have exactly the effect
that its function says, for every tape. The theorems are then about the functions and the traces.

**Shutdown and concurrency.** Run exclusion, scheduler, notification fan-out and transport pool are
systems of atomic steps of any number of threads (`RuntimeProtocol`, `SchedulerProtocol`,
`NotifyProtocol`, `TransportProtocol`), and `AppProtocol` composes them with `App.Close`. A section
under a mutex that waits for nothing is one step; locks held across steps are explicit. Safety is
over all interleavings. Progress needs no fairness: every step that nothing from outside brings makes
a measure smaller, whichever way its choice, delay or failure goes, and there is always such a step
as long as anything is under way (`AppProgress`). It assumes what the program assumes of its
surroundings: that a request, a delay and a send come back, and that a run makes finitely many calls,
a number fixed when it begins (for one run `RunMeaning.RequestBound` bounds its requests).

Files, from the bottom up:

- `Domain`, `Protocol`: error chains, response classification, translation and mapping of errors
- `Store`, `World`, `Transport`: the store, the outside world, round trippers and trippers
- `BrowseSpec`, `Browse`, `SessionTrace`: the browse session and what it leaves in the trace
- `SessionScript`, `SessionIdentity`: which requests a session must make and in which order, and
  which identity each of them shows
- `AuthSpec`, `RefreshSpec`, `Refresh`, `RunTrace`: login, the run, the checks
- `Binding`, `BindingLimits`: account binding over histories with crashes, and its limits
- `RunGrowth`, `Resolving`: how a run adds to its traces, and what resolving an identity keeps,
  writes and asks
- `RunOutcome`, `RunAftermath`, `RunMeaning`, `RunIdentity`, `BusiestRun`: one session, what a denied
  one leads to, the whole run with its bounds and messages, whose identity it shows, and runs that
  attain the bounds or get a wrong message
- `ClientPool`: pooled clients agree with fresh ones
- `RuntimeProtocol`, `SchedulerProtocol`, `NotifyProtocol`, `TransportProtocol`, `AppProtocol`,
  `AppProgress`, `Threads`, `Sums`: the step systems, their safety and their progress
- `Sanitize`: redaction of JSON bodies

Where code and documentation disagree, the model follows the code:

- `HandleAuthExpired` receives the epoch of the expired session and does not use it; it resets
  whatever is stored (internal/refresh/auth_manager.go:89-93).
- Three messages tell the user that token, device id and visitor id are cleared
  (internal/refresh/message.go:70-85). The one that puts the login off to the next run is right. The
  one that announces the retry is sent when the re-login is already over and the store holds the new
  identity (`RunMeaning.RetryMessageIsLate`). The one that says that the re-login failed is right
  exactly when there was no second session and the last own write met a fault that kept every
  identity out: the write of the account, or that of the bare visitor id without landing
  (`RunMeaning.ReloginFailedMessage`). So it is wrong after an ordinary refused login, which leaves
  the new visitor id (`BusiestRun.WrongAfterRefusedLogin`), and after a second session was denied,
  which leaves the whole new identity (`BusiestRun.WrongAfterSecondDenial`).

Two behaviours that a reader may not expect are exact conditions of theorems: a failing save of a
session's identity is the only outcome without a terminal message (internal/refresh/service.go:89-91,
`RunMeaning.NotificationLanguage`), and the first keep-alive update may be denied for authentication
and the run still succeeds (internal/refresh/checks.go:27-36, `RunTrace.RunChecksMeaning`).

## Model

| member | source | states |
|---|---|---|
| Store.LevelDBStore.LoadAuthState | internal/store/leveldb.go:55-77 | returns the stored identity with the current epoch, whatever the order of the keys; fails, with an empty identity, exactly when one of the three reads fails |
| Store.LevelDBStore.LoadAuthAccount | internal/store/leveldb.go:79-91 | the stored account, "" for none; fails exactly when its read fails |
| Store.LevelDBStore.SaveAuthState | internal/store/leveldb.go:95-118 | writes the three keys and leaves the account alone exactly when the epoch is current; saved only then and without a fault |
| Store.LevelDBStore.SaveAuthAccount | internal/store/leveldb.go:120-137 | writes the account key only, under the same guard |
| Store.LevelDBStore.ResetAuthState | internal/store/leveldb.go:140-155 | deletes all four keys at once and raises the epoch by one, unless the disk reports a fault |
| Store.GenerationSpec | internal/store/leveldb.go:95-155 | for any interleaving of clients the epoch is the number of successful resets and the database is the fold of the writes accepted since the last one |
| Store.SavedIffCurrent | internal/store/leveldb.go:95-137 | an operation reports success exactly when its epoch is the current one and the disk reports no fault |
| Store.NoStaleWriteVisible | internal/store/leveldb.go:95-155 | a token visible after a reset was written after that reset by an operation carrying its epoch |
| Protocol.BrowseClassSurvives | pkg/apikit/apimtbrowse/errors.go:19-46 | the class of a browse answer, read off status and business code, is the code the refresh service sees after parsing, translation, any number of wrappings and mapping; cancellation and deadline stay recognisable |
| Protocol.PingClassSurvives | pkg/apikit/internal/mtproto/response.go:77-91 | the same for the endpoint judged by its status alone |
| Protocol.AuthClassSurvives | pkg/apikit/apimtauth/errors.go:17-35 | the same for the login kit and its mapping |
| Protocol.ForeignIsUntouched | internal/app/mteam_adapter.go:74-108 | errors of transport, disk and operating system pass translation and mapping unchanged and carry no code |
| Protocol.ParseMeaning | pkg/apikit/internal/mtproto/response.go:55-91 | parsing gives, by the class of the answer alone, its payload, the transport error unchanged, or the sentinel of exactly that class |
| Domain.WrapKeepsMatches | internal/domain/error.go:27-46 | wrapping any number of times keeps every match by sentinel and by code |
| Transport.Chain | pkg/apicore/types.go:44-55 | the downward loop composes the trippers with the first one outermost |
| Transport.ChainOfChain | pkg/apicore/types.go:44-55 | a chain over a chain is one chain of the outer and then the inner trippers |
| Transport.DeleteHeader | pkg/apikit/internal/mttransport/unix.go:22-28 | removes exactly the entries whose key equals the given one up to letter case |
| Transport.State.UpdateDID | pkg/apikit/internal/mttransport/state.go:38-45 | replaces the device id, unless the new one is empty |
| Transport.RoundTripWithIdentity | pkg/apikit/internal/mttransport/identity.go:10-41 | injects the current identity, passes the answer on, and takes the first device id of the response |
| Transport.FirstDidMeaning | pkg/apikit/internal/mttransport/identity.go:29-37 | the device id a response carries is the value of its first header of that name in any spelling, and none without one |
| Transport.SessionChainMeaning | pkg/apikit/apimtbrowse/client.go:29-41 | for every request the base transport sees no authorization or device id in any spelling on the unix endpoint, and all non-empty parts of the identity elsewhere, with the common headers and everything else of the request as it was; only the device id rotates |
| Transport.LoginChainMeaning | pkg/apikit/apimtauth/client.go:33-45 | the login client's chain adds the common headers, keeps the visitor id and, away from the unix address, the device id of a login, and changes nothing else of a request nor its answer |
| Transport.PlainIsNotUnix | pkg/apikit/internal/mttransport/unix.go:9-20 | an address on a host without a slash is not the unix endpoint when its path, of plain segments, is another one, whatever query follows |
| Browse.Session.Do | pkg/apikit/apimtbrowse/session.go:27-78 | for every tape, exactly the request step of `BrowseSpec.Do`: refused when the context is over, otherwise sent once through the chain with the current identity; `SessionTrace.DoFacts` says what that promises |
| Browse.Session.Snapshot | pkg/apikit/apimtbrowse/session.go:22-25 | the identity as the responses so far have left it |
| Browse.Session.UpdateLastBrowse | pkg/apikit/apimtbrowse/member.go:9-12 | for every tape, one request to the keep-alive endpoint and its verdict |
| Browse.Session.Profile | pkg/apikit/apimtbrowse/profile.go:11-21 | for every tape, one profile request, failing also when an accepted answer does not decode |
| Browse.Session.Warmup | pkg/apikit/apimtbrowse/system.go:35-46 | the loop equals the recursion over the 15 endpoints that `SessionTrace.WarmupFacts` characterises |
| Browse.Session.PhaseVisitForums | pkg/apikit/apimtbrowse/forum.go:125-151 | the forums with positive ids and the distinct positive authors in order of appearance |
| Browse.Session.PhaseResolveMembers | pkg/apikit/apimtbrowse/forum.go:153-171 | resolving members, with its decoding failure |
| Browse.Session.PhaseSearchTopics | pkg/apikit/apimtbrowse/forum.go:173-205 | the topics of a forum with their distinct authors and last posters |
| Browse.Session.PhaseViewTopic | pkg/apikit/apimtbrowse/forum.go:207-228 | three requests in order, stopping at the first failure |
| Browse.Session.BrowseForum | pkg/apikit/apimtbrowse/forum.go:15-117 | for every tape the method leaves exactly the world, identity, flag and error of the specified walk; `SessionTrace.BrowseForumMeaning` and `SessionScript.BrowseForumFollows` say what they mean |
| Browse.KeepDistinct | pkg/apikit/apimtbrowse/forum.go:134-149 | the loop with its seen-map keeps each positive id at its first occurrence |
| BrowseSpec.DistinctMeaning | pkg/apikit/apimtbrowse/forum.go:134-149 | the kept ids are exactly the positive ones, none twice |
| BrowseSpec.PositiveMeaning | pkg/apikit/apimtbrowse/forum.go:134-149 | the kept forum and topic ids are exactly the positive ones, in their order, repetitions included |
| BrowseSpec.DistinctOrder | pkg/apikit/apimtbrowse/forum.go:134-149 | the kept member ids are the first occurrences of the positive ones, in their order |
| SessionTrace.ReplayMeaning | pkg/apikit/internal/mttransport/state.go:38-45 | rotation over any series of responses changes nothing but the device id, to the last non-empty one received |
| SessionTrace.DoFacts | pkg/apikit/apimtbrowse/session.go:27-78 | every request goes to the address of its own path on the configured host, with a query exactly for GET, the body's type and the client's options, and carries the identity its predecessors' responses left; it fails exactly when the server did not accept it, critically exactly when its entry is critical, with an error of the right class |
| SessionTrace.WarmupFacts | pkg/apikit/apimtbrowse/system.go:15-46 | warmup succeeds exactly when all 15 endpoints accepted in order; otherwise it breaks off at the first that did not |
| SessionTrace.BrowseForumMeaning | pkg/apikit/apimtbrowse/forum.go:15-123 | at most 40 requests; reports an update exactly when one of its own updates was accepted; returns an error exactly when one of its attempts failed critically, and then one that has the class and cause of its last attempt; `SessionScript` says which attempts there must be |
| SessionScript.BrowseForumFollows | pkg/apikit/apimtbrowse/forum.go:15-117 | every walk is one tour, attempt by attempt: a forum list; when it names forums, its authors, one of these forums, a warmup and, whatever failed in it short of a critical failure, an update; the topic search there; when it finds topics, their authors and last posters, a warmup and again an update whatever failed, and the three requests for one of these topics; a critical failure ends it, and nothing else does |
| SessionScript.RunChecksFollows | internal/refresh/checks.go:14-37 | every session is one script: warmup, profile, warmup, update and tour, each part there exactly when those before it were accepted (the update need not be), and each attempt asks the endpoint that its place demands |
| SessionScript.WalkUpdates | pkg/apikit/apimtbrowse/forum.go:36-105 | a walk that meets no critical failure attempts no update when the forum list names no forum, exactly one when it does, and exactly two when the topic search found a topic |
| SessionIdentity.SessionShowsIdentity | pkg/apikit/apimtbrowse/session.go:33-72 | for every server and a host without a slash: each request of a session goes to its own path there; on the unix path it carries no authorization and no device id; on any other it carries the token and visitor id of the session and the device id as rotated so far |
| SessionScript.SearchedMeaning | pkg/apikit/apimtbrowse/forum.go:173-205 | a search offers exactly the topics with positive ids, and names exactly their positive authors and, in a list of its own, their positive last posters |
| SessionTrace.MappingKeepsBlame | internal/app/mteam_adapter.go:91-108 | the domain mapping keeps the class, the criticality and the cause of a session error |
| Refresh.CheckSession | internal/refresh/checks.go:14-37 | for every tape the checks over a session object leave exactly the world, identity and error of their specification, whose meaning is `RunTrace.RunChecksMeaning` and `SessionScript.RunChecksFollows` |
| RunTrace.KeepAliveFacts | internal/refresh/checks.go:27-36 | first update and walk give no error exactly when the walk met no critical failure and some update was accepted |
| RunTrace.RunChecksMeaning | internal/refresh/checks.go:14-43 | for every server at most 72 requests; success exactly when both warmups and the profile were accepted, nothing after the first update attempt failed critically and some update was accepted; a failure has exactly the code and cause of the first update attempt when there was one and nothing after it was critical, and of the last attempt otherwise; so it is an authentication failure exactly when that attempt was denied |
| AuthSpec.Client.Login | pkg/apikit/apimtauth/client.go:70-78 | for every tape a login with its visitor id check does what its specification says, whose meaning is `AuthSpec.LoginStepFacts` |
| AuthSpec.Client.LoginOnce | pkg/apikit/apimtauth/login.go:17-73 | one attempt, recursing once with a code when the server asks for one |
| AuthSpec.Client.Try | pkg/apikit/apimtauth/login.go:17-56 | one login request, and whether the server asked for a code before one was sent |
| AuthSpec.ReadHeaders | pkg/apikit/apimtauth/login.go:57-72 | token and device id with their fallbacks; a blank token is an authentication failure |
| AuthSpec.LoginStepFacts | pkg/apikit/apimtauth/login.go:17-73 | at most two requests, touching nothing else, each with the given credentials, visitor id and a device id to the login address, the second with a code and exactly after the server asked for one; the end is that of the last attempt: the identity its answer grants, with the device id received or else the one sent, or an error of its class |
| Refresh.AuthManager.Resolve | internal/refresh/auth_manager.go:37-87 | for every tape the method leaves exactly the store, traces and result of its specification, whose meaning is `Resolving.ResolveFacts` and `Binding.ResolveMeaning` |
| Refresh.AuthManager.HandleAuthExpired | internal/refresh/auth_manager.go:89-118 | for every tape and whatever the epoch argument, purge and re-login do what their specification says, whose meaning is `RunAftermath.ExpiryFacts` |
| Refresh.AuthManager.LoginAndSave | internal/refresh/auth_manager.go:120-138 | for every tape login and guarded save do what their specification says, with both ways a save can be refused |
| Refresh.Service.RunWithSession | internal/refresh/service.go:80-114 | for every tape one session with persistence and message is its specification, whose meaning is `RunOutcome.SessionFacts` |
| Refresh.Service.HandlePasswordAuthExpired | internal/refresh/auth.go:19-49 | for every tape purge, messages and the single retry are their specification, whose meaning is `RunAftermath.AftermathFacts` |
| Refresh.Service.Run | internal/refresh/service.go:41-71 | for every tape a run leaves exactly the store, requests, messages and error of its specification, about which the theorems of `Binding` and `RunMeaning` are |
| Refresh.Service.Notify | internal/refresh/service.go:116-123 | a message is sent exactly when there is a notifier |
| Binding.ResolvedIsComplete | internal/refresh/auth_manager.go:37-87 | whatever configuration, store and server, a successful Resolve returns a complete identity |
| Binding.ValidatedConfig | pkg/apikit/apimtauth/config.go:32-53 | after validation the invalid-configuration branch is unreachable and password mode has a user |
| Binding.ValidatedIff | pkg/apikit/apimtauth/config.go:32-53 | accepted are exactly the configurations with a host, a positive timeout and a complete identity or credentials, where each of the two is given in full or not at all and a code secret only beside credentials |
| Binding.ResolveMeaning | internal/refresh/auth_manager.go:37-87 | in password mode the store stays bound at every step, and a success is an identity issued to the configured user that the store holds under that user while the epoch stands; what is kept of the stored identity is `Resolving.ResolveFacts` |
| Binding.AccountBinding | internal/refresh/auth_manager.go:37-138 | from any safe world, such as any older database, over any sequence of processes with different users, any number of runs, resets by others, faults and a crash after any critical section: a token under a non-empty account was issued by a login of that account, at the end and after every critical section |
| Binding.NoForeignToken | internal/refresh/auth_manager.go:37-87 | in every such history a successful password-mode Resolve never returns another account's token |
| Resolving.ResolveFacts | internal/refresh/auth_manager.go:37-87 | for every tape and stored identity: a failing read ends it; under the user's own account the identity is kept, a missing visitor id is drawn and saved, and a missing token or device id takes one login under that visitor id and its save; another account's identity is reset first, any other account replaced; the writes come in this order at one epoch, the login only when all before it are saved; it succeeds, with exactly that identity, exactly when all are saved, and otherwise fails with the code of the write that failed |
| Resolving.StoredVisitorIsKept | internal/refresh/auth_manager.go:68-87 | under the user's own account a stored visitor id survives every resolution: in the result, in every own write, of which there is at most one, and in the login |
| Resolving.CompleteIdentityIsTaken | internal/refresh/auth_manager.go:68-87 | a complete identity under the user's own account is taken as it is, with no request and no write |
| BindingLimits.OwnTokenIffNamed | pkg/apikit/apimtauth/config.go:39-51 | resolution yields the user's own token from every safe world if and only if the configured user name is not empty |
| BindingLimits.TwoResolutionsMix | internal/refresh/auth_manager.go:46-50 | from any safe world with another account's identity, on a calm disk: when a second resolution of the same user gets as far as its binding between the two reads of the first, the first one succeeds with a token that no login of its user obtained, at an epoch that is over; binding rests on runs being serial, which `AppProtocol.RunsAreSerial` states |
| RunOutcome.SessionFacts | internal/refresh/service.go:80-114 | a session makes at most 72 requests and no login; it ends as denied exactly when its trace does; it writes its rotated identity exactly when that changed, not in token mode and not when denied; its one message and its error are read off its trace and the fate of that write |
| RunAftermath.AftermathFacts | internal/refresh/auth.go:19-49 | after a denied session: purge first, then only the planned writes in their order; a second session exactly when those of the re-login are all saved, and then its trace decides the messages and the error; otherwise the one message and the error are those of the last write's fate, and without retry the error is the first denial; what the messages say about the store against what it holds |
| RunAftermath.ExpiryFacts | internal/refresh/auth_manager.go:89-118 | the first own write is a reset; a failed one ends it with its own code; after a successful one the database was empty at a higher epoch, and the account, a bare visitor id and the identity that the re-login obtained follow in this order at that epoch, each only when the one before was saved |
| RunAftermath.ReloginFacts | internal/refresh/auth_manager.go:98-117 | a re-login from an empty store leaves there the identity it returns; when it ends in "re-login failed", no token, device id or visitor id is stored exactly when a fault kept the account or the bare visitor id out |
| RunMeaning.RunTells | internal/refresh/service.go:41-114 | the story of every run, read off its traces: without an identity "refresh failed" and no session; a password session that the server denied, and no other, leads to the purge and what `RunAftermath` says; any other first session is the last, and its trace and the fate of its write decide message and error |
| RunMeaning.RequestBound | internal/refresh/service.go:41-71 | every run makes at most 148 requests, two logins, two sessions and two resets; with a configured token at most 72 requests, no login and no store access |
| RunMeaning.NotificationLanguage | internal/refresh/service.go:85-114 | with a notifier exactly one terminal message, after "expired, retrying" exactly when there was a second session; missing exactly when a session's save reported a fault; the success message exactly for a nil error |
| RunMeaning.ReloginFailedMessage | internal/refresh/message.go:76-85 | the next-run message is sent only with an empty database; after "re-login failed" token, device id and visitor id are all cleared if and only if there was no second session and the last own write was a failed one of the account, or a failed one of a bare visitor id that did not land |
| RunMeaning.RetryMessageIsLate | internal/refresh/message.go:70-75 | when "expired, retrying" is sent the database has been empty after the purge, and already holds the identity, with its token, that the re-login obtained |
| RunMeaning.PurgeOnDenial | internal/refresh/auth_manager.go:89-118 | a password run whose first session was not denied, as its trace tells, ends with it and resets nothing; after a denied one nothing of it is written, all keys were empty together at a higher epoch, and every later write carries it and is, in this order, the account, a bare visitor id, the identity that a login under it obtained, or that identity as the second session rotated it; without retry the database ends empty; a failed reset ends the run with its own code |
| RunMeaning.SessionPersists | internal/refresh/service.go:80-95 | without denial, fault or reset the store ends with the starting identity and the last device id received |
| RunMeaning.RunPersists | internal/refresh/service.go:41-95 | the same for the last session of a run, the first one or the one after a re-login |
| RunIdentity.NoForeignRequest | internal/refresh/service.go:41-71 | every request of a run from a safe world is a login of the configured user, or goes to its own path and shows there the configured identity, or in password mode one whose token a login of that user obtained; the unix path carries neither token nor device id |
| BusiestRun.BoundAttained | internal/refresh/service.go:41-71 | a tape and a fresh store for which one run sends exactly 148 requests and succeeds |
| BusiestRun.TokenBoundAttained | internal/refresh/service.go:41-71 | tapes for which a run with a configured token sends exactly 72 requests and succeeds |
| BusiestRun.WrongAfterSecondDenial | internal/refresh/auth.go:41-43 | a run with a second session that is denied: "re-login failed" is sent while the store holds the whole new identity |
| BusiestRun.WrongAfterRefusedLogin | internal/refresh/auth.go:28-30 | a run whose re-login the server refuses: "re-login failed" is sent while the store holds the new visitor id |
| ClientPool.EffectiveUserAgent | pkg/apicore/tlsclient.go:206-216 | the request's own, else some non-empty header of that name in any spelling, else the default |
| ClientPool.ProfileByBrand | pkg/apicore/tlsclient.go:222-234 | which browser a user agent is served as, by the brands it mentions in any spelling: Firefox first, Safari only without Chrome or Chromium, then these and Edge |
| ClientPool.MillisRoundsUp | pkg/apicore/tlsclient.go:267-272 | the timeout is rounded up by less than a millisecond and is zero only for no timeout |
| ClientPool.FloatCeilIsClose | pkg/apicore/tlsclient.go:267-272 | for every positive 64-bit timeout and both roundings, with relative error at most 2^-53 and keeping whole numbers below 2^53: at most one millisecond off, and exact below 2^53 nanoseconds and for every timeout not within 2100 nanoseconds of a whole millisecond |
| ClientPool.FloatCeilLosesOne | pkg/apicore/tlsclient.go:267-272 | a timeout above 2^53 nanoseconds whose last millisecond the rounding loses |
| ClientPool.KeyDeterminesOptions | pkg/apicore/tlsclient.go:186-204 | the pool key loses nothing that the options of a client depend on |
| ClientPool.TLSClient.Acquire | pkg/apicore/tlsclient.go:115-157 | lookup, jar and factory under the mutex are one step of the specified pool, about which the three theorems below are |
| ClientPool.TLSClient.NewClient | pkg/apicore/tlsclient.go:186-204 | the options set one by one are those of the configuration |
| ClientPool.AcquireKeepsOrder | pkg/apicore/tlsclient.go:115-157 | an acquire is refused exactly when the factory fails for a key without a client; nothing in the pool is ever replaced |
| ClientPool.PoolAgreesWithFreshClients | pkg/apicore/tlsclient.go:115-157 | for every sequence of requests with factory failures anywhere, each served request gets a client with exactly the options a fresh client for it would have |
| ClientPool.OneClientPerKey | pkg/apicore/tlsclient.go:131-156 | two served requests get the same client exactly when their keys are equal |
| ClientPool.JarsFollowScopes | pkg/apicore/tlsclient.go:136-143 | two served requests share a cookie jar exactly when they have the same non-empty scope |
| RuntimeProtocol.MutualExclusion | internal/runtime/runtime.go:47-79 | in every interleaving at most one thread is in the run body |
| RuntimeProtocol.StopBarrier | internal/runtime/runtime.go:81-90 | once any Stop call has returned no thread is in the run body, then or ever after |
| RuntimeProtocol.UndisturbedRun | internal/runtime/runtime.go:47-79 | after any interleaving a TryRun call that nobody disturbs gets into the run body exactly when its delay context is not over, the service was published, no Stop has set its flag, the root context is not over and no other thread is between taking and giving back the lock |
| RuntimeProtocol.StopCancels | internal/runtime/runtime.go:81-90 | in every interleaving, once the stop flag is set, the root context is canceled or the Stop call that set the flag is about to cancel it |
| RuntimeProtocol.NeverStuck | internal/runtime/runtime.go:47-90 | as long as a thread is in TryRun or Stop, some thread can take a step, the holder of the lock if no other |
| TransportProtocol.InflightIsUsers | pkg/apicore/tlsclient.go:73-89 | the count in flight is the number of threads between acquire and return |
| TransportProtocol.AcquiredUntilClose | pkg/apicore/tlsclient.go:115-157 | a round trip gets its client exactly when no Close has set its flag before and the factory, if asked, did not fail |
| TransportProtocol.NoAddAfterClosed | pkg/apicore/tlsclient.go:125-130 | from a closed state, over any legal continuation, it stays closed, no client is built and the count never rises |
| TransportProtocol.CloseAfterDrain | pkg/apicore/tlsclient.go:174-184 | closing idle connections never overlaps a round trip |
| TransportProtocol.CloseIsComplete | pkg/apicore/tlsclient.go:159-184 | when any Close call has returned, every client ever built has been closed exactly once and nothing is in flight, then and ever after |
| TransportProtocol.NeverStuck | pkg/apicore/tlsclient.go:73-184 | as long as a thread is in RoundTrip or Close, some thread can take a step |
| NotifyProtocol.NeverBlocks | pkg/apikit/apinotify/manager.go:123-145 | a sender that is about to report always finds room in the error channel |
| NotifyProtocol.OneErrorPerFailure | pkg/apikit/apinotify/manager.go:123-153 | over the steps of any interleaving: since its admission a returning call has begun exactly one send on every channel and ended it, and its errors are, once each, exactly the channels whose send ended with a failure or a panic |
| NotifyProtocol.AdmittedUntilClose | pkg/apikit/apinotify/manager.go:113-121 | a Notify call is admitted exactly when no Close call has set its flag before |
| NotifyProtocol.CloseAfterSends | pkg/apikit/apinotify/manager.go:156-174 | channels are closed only while no Notify call is under way and no sender is alive |
| NotifyProtocol.ClosesEveryChannel | pkg/apikit/apinotify/manager.go:156-174 | a Close call that ends has closed as many channels as there are |
| NotifyProtocol.NoSendAfterClose | pkg/apikit/apinotify/manager.go:113-121 | once any Close call has returned no send is under way, then or ever after |
| NotifyProtocol.NeverStuck | pkg/apikit/apinotify/manager.go:113-174 | as long as a thread is in Notify or Close, it, a sender of some call or another thread can take a step |
| SchedulerProtocol.StartedOnce | internal/scheduler/scheduler.go:60-80 | cron is started at most once; the done channel is closed at most once, and exactly once when a Stop call has returned |
| SchedulerProtocol.CronFollowsCalls | internal/scheduler/scheduler.go:60-106 | cron was started, once, exactly when some Start whose job it took came before every Stop, and fires jobs exactly when besides no Stop has begun |
| SchedulerProtocol.NoJobAfterStop | internal/scheduler/scheduler.go:82-106 | once any Stop call has returned no job is running, then or ever after |
| SchedulerProtocol.NeverStuck | internal/scheduler/scheduler.go:60-132 | as long as a thread is in Start or Stop or a job runs, some thread can take a step |
| AppProtocol.InvStep | internal/app/app.go:124-148 | every step of runs, jobs, notifications, round trips and closing keeps the invariant of the composed system |
| AppProtocol.RunsUseOpenResources | internal/app/app.go:124-148 | whenever a thread is in the run body, the store is open and neither notification manager nor transport has begun to close |
| AppProtocol.RunsAreSerial | internal/runtime/runtime.go:57-62 | runs from RunOnce and from jobs are serial: no two threads are ever in the run body, from which alone the store is used |
| AppProtocol.SendersUseOpenResources | pkg/apikit/apinotify/manager.go:123-145 | the same while any sender goroutine is alive, whose run is then still in the run body |
| AppProtocol.NothingIsRefused | internal/app/app.go:124-148 | no Notify call and no round trip of a run meets a closed resource |
| AppProtocol.ClosedForGood | internal/app/app.go:124-148 | once App.Close has returned to any caller, the store and all clients are closed and no run, job, notification or round trip is under way, then or ever after |
| AppProgress.WorkDecreases | internal/app/app.go:112-148 | every step that nothing from outside brings makes the measure of what is left smaller, whichever way its choice, delay or failure goes |
| AppProgress.StepsArePaid | internal/app/app.go:112-148 | over every legal run from the start, the steps taken and what is left are bounded by a price of what arrived: calls, jobs and closes |
| AppProgress.NeverStuck | internal/app/app.go:124-148 | no deadlock: as long as any thread is in any call of any component, some step can be taken that nothing from outside has to bring |
| AppProgress.EveryCloseReturns | internal/app/app.go:124-148 | from every reachable state, every series of steps in any order and with any outcome is bounded until something new arrives; when none is left every thread is idle, and every App.Close call that was pending has returned with store and clients closed |
| AppProgress.Settles | internal/app/app.go:124-148 | from every state of the invariant some series of steps gets to that point |
| Sanitize.LogsAllButSecrets | pkg/log/sanitize.go:139-165 | two bodies are logged alike if and only if they are equal but for what stands under sensitive keys |
| Sanitize.CleanIsAlike | pkg/log/sanitize.go:139-154 | redaction preserves keys, order and shape, and redacting again changes nothing |

## Left out

- TLS handshakes, HTTP, multipart, JSON and URL encoding, request signatures and TOTP: their results are draws of the tape; the encoding errors of a request, which need values that cannot be encoded, are not modelled.
- APIResponse decoding: a business code may be a JSON string or number; the model starts from its decoded text, or from a body that does not decode.
- LevelDB internals, file permissions and directory handling: a batch lands as a whole or not at all, whatever it reports.
- AccountBinding: other clients' resets are successful ones before each critical section; the program has no second client of its store (`AppProtocol.RunsAreSerial`), and any interleaving of clients, with failing resets, is covered by `Store.GenerationSpec`.
- Crashes inside one batch write: the model crashes after any critical section, including one whose batch landed behind a reported fault.
- The epoch is a natural number; wrap-around at 64 bits is not modelled.
- Response headers are an ordered list standing for the order in which a map is ranged over; request headers are maps, and the order of writing them is not observable.
- A round tripper is a function from identity and request to identity, seen request and answer; the logging tripper, which only observes, and a proxy taken from a context, which sessions do not set, are left out.
- The run timeout is not modelled as time: the context may be over at any request.
- Nil receivers, nil clients and nil stores, which the constructors exclude.
- Message texts, profile formatting, log output, log identifiers and rotation: messages are kinds.
- The notification channels themselves and their configuration: a send succeeds, fails or panics.
- Cron parsing and firing times, and the sampling of the random delay: a job's delay ends at any time.
- The response limit of 16 MiB and header flattening of the transport.
- TLSClient.Acquire: clients and jars are numbers with options; that Close empties the two maps is part of `TransportProtocol`, not of this class.
- FloatCeilIsClose: rounding is any one with the stated error, not the binary format; within 2100 nanoseconds of a whole millisecond above 104 days it says "at most one millisecond off" and not which one.
- Scheduler, runtime, notification manager and `App` are step systems and not classes, because what they promise is about interleavings; the short sections under their mutexes are single steps.
- NoSendAfterClose: two concurrent Close calls of the notification manager may both close the channels; that closing twice is harmless is up to the channels.
- Clean: redaction is modelled on values, not in place, and objects keep a list of fields; the text and URL redaction by regular expressions is left out.
- TOML loading, the command line, exit codes, container files and scripts.
