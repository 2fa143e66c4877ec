# Verification of the Athenz client sidecar

A Dafny 4.11 model of the parts of the sidecar whose correctness depends on more than one function: the token caches of
`service/role.go` and `service/access.go`, the shutdown of the two servers in `service/server.go` and `main.go`, the
service certificate cache of `service/svccert.go` and the buffer pool of `infra/buffer.go`. Run it with
`dafny verify dfyconfig.toml`.

| File | Content |
|---|---|
| `Text.dfy` | `strings.Split`, `SplitN`, `Join`, `sort.Strings` and their laws |
| `CacheKey.dfy` | the canonical cache keys: `encode`, `decode`, when they are inverse, when keys collide |
| `Requests.dfy` | the parameters of role token requests, the scope and form of access token requests |
| `TokenModel.dfy` | calls, tokens, cache items and their time to live |
| `TokenService.dfy` | the token services as an object: look-up, update, retry, refresh pass, updater loop |
| `TokenProtocol.dfy`, `TokenSafety.dfy` | the cache under concurrency as a step system, and what holds in every run |
| `TokenFlights.dfy` | which flight an attempt joins, what it gets from it and when |
| `TokenRefresh.dfy` | retries, errors and requests of refreshers in every run |
| `TokenTermination.dfy`, `TokenCollision.dfy` | how many steps a call can take; when a caller can get a token fetched for something else |
| `TokenRefinement.dfy` | an undisturbed run of the step system does what the object does |
| `Paths.dfy` | paths of a step system and their composition |
| `Shutdown.dfy`, `ShutdownSafety.dfy` | the shutdown protocol as a step system, and what holds in every run |
| `ShutdownHistory.dfy` | which actions the errors and times of a result come from |
| `ServerLoop.dfy`, `ShutdownRefinement.dfy` | the supervisor's branches and the loop of `run` as methods, and that the step system does what they do |
| `SvcCert.dfy` | the certificate cache and the updater with its retry channel |
| `CertSafety.dfy`, `CertHistory.dfy` | requests for the certificate under concurrency, and the actions their answers come from |
| `CertRefinement.dfy` | an undisturbed run of that step system does what the object does |
| `DomainName.dfy` | the domain grammar and the names built from a domain |
| `BufferPool.dfy` | the buffer pool as an object and under interleaving |

The role and the access token service have the same design, so one model serves both; they differ in the expiry arguments
(`Bounds`) and in the request. What Athenz answers, how long it takes, the order in which the cache is visited, the choices
of a `select` and the clock are parameters or actions of the environment, never restricted further than stated here:

- `singleflight.Do` runs at most one closure per key at a time and gives its result to everyone who joined;
- the cache keeps an entry stored with a positive time to live readable up to and including the store time plus that value,
  and an entry stored with another time to live readable for good (service/role_test.go:993-1034 relies on the latter);
- the clock never goes back; durations stay in range;
- both `ListenAndServe` calls return a non-nil error other than the context's, and `Shutdown` always returns.

A string is a sequence of code points, whose order is the byte order of their UTF-8 form.

## Model

| member | source | states |
|---|---|---|
| Text.JoinOfSplit | service/role.go:453-456 | splitting a text at a separator gives parts without it that join to the text again |
| Text.SplitOfJoin | service/role.go:453-460 | splitting a joined list gives the parts of its members in order, and the list itself when no member holds the separator |
| Text.LeExactly | service/role.go:454 | one text comes before another exactly when it is its beginning or the characters at the first difference decide |
| Text.SortCorrect | service/role.go:454 | sorting gives an ordered permutation |
| Text.SortedUnique | service/role.go:454 | a list has only one ordered permutation, so the choice of sorting algorithm does not show |
| CacheKey.DecodeOfEncode | service/role.go:452-468 | decoding a key gives back domain, sorted roles and principal exactly when domain and roles are free of the key separator; the principal may hold it |
| CacheKey.SameKey | service/role.go:452-461 | two such triples share a key exactly when domain and principal agree and the role lists are permutations of each other |
| CacheKey.UncleanCollision | service/role.go:452-461 | an instance of what `TokenModel.CleanCollision` describes: with the separator in a domain, calls for the domains "a;b" and "a" share a key |
| CacheKey.EncodeOfDecode | service/role.go:452-468 | a key survives decoding and encoding exactly when it has a separator, its role field is sorted and a third field is not empty |
| CacheKey.CleanKeyRefreshable | service/role.go:452-468 | every key of a call without the separator survives a refresh |
| CacheKey.UncleanKeyMoves | service/role.go:452-468 | the key of the role "x;" becomes another key when refreshed |
| CacheKey.SortRolesCanonical | service/role.go:453-456 | the sorted role text is the same for two role texts exactly when their roles are permutations |
| Requests.CreateScope | service/access.go:393-403 | the loop over the roles builds the scope of the specification function |
| Requests.ScopeText | service/access.go:390-403 | the scope, literally: ":domain" without roles, else ":role." and the role for each, separated by spaces |
| Requests.ScopeOfSameRoles | service/access.go:393-403 | permuting the roles permutes the space-separated items of the scope, whatever characters the names hold |
| Requests.SameKeySameScope | service/access.go:393-403 | calls that share a cache key would ask for the same scope up to order |
| Requests.ParseOfScope | service/access.go:390-403 | domain and role list, in order, can be read back from the scope exactly when the domain has no space or ':' and the roles no space |
| Requests.RoleRequestsAgree | service/role.go:410-450 | two role token requests are equal exactly when their targets, roles, principal and effective expiry bounds are; for domains without '?' and '#', equal targets are equal domains |
| Requests.CutTarget | service/role.go:411-413 | what follows a '#' in a domain is not sent, and what follows a '?' becomes query text of its own in front of the added parameters |
| Requests.ReadRoleQuery | service/role.go:426-445 | roles, effective bounds and principal can be read back from the parameters added to the query; absent ones stand for the empty or non-positive ones |
| Requests.AccessRequestsAgree | service/access.go:414-429 | two access token requests are equal exactly when scope, principal and effective lifetime are |
| Requests.ReadAccessForm | service/access.go:418-429 | scope, principal and effective lifetime can be read back from the form |
| TokenModel.SameKeySameToken | service/role.go:452-461 | for clean calls, sharing a key is asking for the same token |
| TokenModel.RoleRequestOfCall | service/role.go:410-450 | the path, and each parameter with the exact condition under which it is sent, of the request for a call with the bounds of a role token; no others are sent |
| TokenModel.AccessRequestOfCall | service/access.go:414-439 | each field, with the exact condition under which it is sent, of the form for a call with the bounds of an access token; no others are sent, and domain and roles can be read back from its scope |
| TokenModel.CleanCollision | service/role.go:452-468 | a call shares its key with some clean call for another token exactly when it is not clean and its key is one that a refresh keeps |
| TokenModel.Collision | service/role.go:452-468 | with any callers, clean or not, a call shares its key with a call for another token exactly when the separators of its key can be read in another way that leaves an ordered role list |
| TokenModel.CleanVictim | service/role.go:452-468 | a clean call with a comma-free principal shares its key with a call for another token exactly when it has a principal |
| TokenModel.ReadableAfterExpiry | service/role.go:314-331 | a token expiring at E with more than a minute left is readable until E - 60s plus the time between reading the clock and the store, another one for good; so an entry can be read after its token's expiry exactly when the token had at most a minute left or the store came more than a minute after reading the clock |
| TokenModel.RefreshKey | service/role.go:276-280 | a refresh stores under the visited key exactly when the key is well formed, and keeps the stored expiry bounds |
| TokenModel.RefreshRepeatsRequest | service/role.go:276-280 | for a clean call a refresh sends the original request but for the order of the roles in the query, or of the items in the scope |
| TokenService.Service.GetCache | service/role.go:402-408 | the cached token exactly when the key is there and still readable |
| TokenService.Service.UpdateToken | service/role.go:314-341 | one request; on success the entry of the key is replaced, on failure nothing is |
| TokenService.Service.GetToken | service/role.go:260-266 | a readable entry is returned without any effect, otherwise the update's outcome |
| TokenService.Service.UpdateTokenWithRetry | service/role.go:291-310 | the retry loop ends in the world and with the errors of the specification function `Retry` |
| TokenService.Service.VisitKey | service/role.go:276-284 | one callback of the pass: decoded key, stored bounds, retry |
| TokenService.Service.RefreshTokenCache | service/role.go:269-288 | the pass visits its keys in any given order, others acting in any way between the visits, and concatenates their errors |
| TokenService.Service.StartUpdater | service/role.go:226-244 | whatever time passes and whatever others do to the cache between ticks and between the visits of a pass, what is written is, one by one and in order, the errors of the passes, and then, exactly at the end of the context, one context error and the close |
| TokenService.RetryEffect | service/role.go:294-307 | at most max+1 attempts with the same request, the errors are those before the first success, and only a success touches the cache |
| TokenService.RetryPauses | service/role.go:299-301 | the clock moves by the delays of the attempts made and by the configured pause for each failure, and by nothing else |
| TokenService.RefreshEffect | service/role.go:269-307 | turn by turn, whatever others do in between, a pass over well-formed keys sends to each readable entry between 1 and max+1 requests, as many as its answers up to the first success, all for the decoded key with the stored bounds, reports the failures in order, stores a success under the visited key and keeps its bounds; the keys at the end are exactly those others have left |
| TokenService.RefreshRepeatsCalls | service/role.go:269-307 | over the entries of clean calls, those requests are exactly the stored calls with their roles sorted, and differ from the requests for those calls only in the order of the roles; the entries stay those of clean calls under their own keys |
| TokenService.QuietPass | service/role.go:269-288 | while nobody else touches the cache, a pass keeps all keys and bounds and repeats what was stored at its beginning |
| TokenService.RefreshErrorsFit | service/role.go:272-284 | unless others add keys, the errors of a pass never exceed Len*(max+1), the capacity of its channel |
| TokenService.StreamOfPasses | service/role.go:229-241 | each pass starts where the one before has ended, after anything others did to clock, cache and requests in between, and the updater forwards the concatenation of the errors of exactly these passes |
| TokenService.NothingAfterCancel | service/role.go:233-237 | after the end of the context no pass runs and no error is forwarded |
| TokenSafety.StepKeeps | service/role.go:314-341 | every step of callers, refreshers, cache and clock keeps the invariant of flight table, fetches, stores and cache |
| TokenSafety.RunKeeps | service/role.go:260-341 | the invariant holds at every moment of every run |
| TokenSafety.OneFetchPerKey | service/role.go:318-335 | in every run at most one goroutine at a time is inside a fetch for a key |
| TokenSafety.StoreIsLatest | service/role.go:318-335 | a token about to be stored comes from a later fetch than all stored under its key before |
| TokenSafety.StoresInFetchOrder | service/role.go:314-341 | in every run the stores for a key come in the order of their fetches, the earlier of which are over |
| TokenSafety.CacheNeverGoesBack | service/role.go:314-341 | in every run a cached token is never followed, under its key, by one of an earlier fetch |
| TokenSafety.NeverStuck | service/role.go:314-341 | every unfinished goroutine can act, or waits for an open flight whose leader can |
| TokenSafety.OutcomesAreGenuine | service/role.go:260-341 | the token or error a caller gets, from the cache, its own flight or that of another, is what Athenz answered earlier in the run to a fetch for its own key; with clean callers, for the same domain, principal and roles |
| TokenSafety.OutcomesAreFinal | service/role.go:318-340 | the outcome of a fetch never changes once it is there |
| TokenSafety.EntriesUnderTheirKeys | service/role.go:324-331 | in every run each entry lies under the key of its own domain, roles and principal |
| TokenSafety.RefreshStaysAtItsKey | service/role.go:276-299 | with clean callers a refresher works from its visit to the end of the run under the key it visited, for the call stored there with its roles sorted |
| TokenSafety.RefreshAddsNothing | service/role.go:269-331 | with clean callers, however refreshes interleave, every store is under the key of an earlier call, and every entry has the bounds of an earlier call under its key |
| TokenRefresh.RetriesAndErrors | service/role.go:294-307 | in every run, from its visit on, a refresher with r retries makes at most r+1 attempts, led or joined, and reports exactly the errors before its first success; if it stops without one, it has made and reported all r+1 |
| TokenRefresh.ResultsAreOutcomes | service/role.go:299-306 | each result of an attempt is the outcome the refresher has at that moment, and so that of a fetch for its key |
| TokenRefresh.PassErrorsFit | service/role.go:272-284 | in every run, however its visits overlap, the errors of a pass over distinct keys with r retries each fit in keys*(r+1) |
| TokenRefresh.RequestsRepeatStoredCall | service/role.go:276-280 | in every run with clean callers, each request a refresher sends is for the call stored at its visit with the roles sorted, and differs from the request for that call only in their order |
| TokenSafety.NoExpiredTokenIsServed | service/role.go:260-266 | if every stored token comes within a minute and with more than a minute left, no look-up in the run finds a token past its expiry |
| TokenFlights.EnterJoinsOpenFlight | service/role.go:316-318 | in every run whoever enters the group gets a flight of its own key that is open at that moment: its own, counted from the clock reading it made before, or the one in the flight table |
| TokenFlights.ResultOfOpenFlight | service/role.go:314-341 | in every run the result a flight gives to its leader or to one who joined is that of a fetch for its own key which was open when, in that attempt, it entered the group |
| TokenFlights.NoExpiredTokenIsHandedOut | service/role.go:260-341 | if flights are closed, and waits over, within a minute together, and tokens have more than a minute left, no goroutine is handed an expired token, be it from the cache, from a flight it led or from one it joined |
| TokenCollision.ForeignTokens | service/role.go:260-266 | among otherwise clean callers, some run hands a call a token fetched for another domain, principal or role list exactly when the call is not clean and its key is one that a refresh keeps |
| TokenCollision.AnyForeignTokens | service/role.go:260-266 | with any other callers, some run hands a call, clean or not, a token fetched for another domain, principal or role list exactly when its key can be read in another way; a clean call with a comma-free principal, exactly when it has one |
| TokenTermination.StepDecreases | service/role.go:291-341 | every step of a goroutine under way lowers a measure over all goroutines and the retries they have left |
| TokenTermination.StepsAreBounded | service/role.go:260-341 | in every run the goroutines take at most six steps for each call and 5 + 6r for each refresh of a key with r retries |
| TokenTermination.QuietIsDone | service/role.go:260-341 | when no goroutine can move, each has its outcome, and a refresher has a token or no attempt left |
| TokenRefinement.UpdateRefines | service/role.go:314-341 | an update whose steps nobody interrupts can take them all, and changes clock and cache as the object's update |
| TokenRefinement.RetryRefines | service/role.go:291-310 | a refresher nobody interrupts can take all its attempts and pauses, and ends with the clock and cache of the object's retry loop |
| TokenRefinement.VisitRefines | service/role.go:276-284 | a visit of a readable entry that nobody interrupts can take all its steps, and ends with the clock and cache of the object's visit |
| TokenRefinement.CallRefines | service/role.go:260-266 | a call nobody interrupts takes the look-up and, without a readable entry, exactly the steps of one update; it returns the entry's token and changes nothing, or updates clock and cache as the object and returns the answer |
| ShutdownSafety.StepKeeps | service/server.go:118-224 | every step of the three goroutines and of `run` keeps the invariant of lock, flags, channels and supervisor |
| ShutdownSafety.RunKeeps | service/server.go:118-224 | the invariant holds at every moment of every run |
| ShutdownSafety.SuperviseCovers | service/server.go:177-218 | when the supervisor passes a server by, that server has returned, was told to shut down or is not enabled |
| ShutdownSafety.ReportCoversServers | service/server.go:128-218 | in every run, once the result is sent, every enabled server has returned from listening or was told to shut down |
| ShutdownSafety.OneReport | service/server.go:163-221 | at most one result is sent, and only after the context ended or a server returned |
| ShutdownSafety.SendsNeverBlock | service/server.go:118-224 | none of the sends on the three channels ever blocks |
| ShutdownSafety.ReaderNeverWaits | service/server.go:177-216 | while the supervisor holds the read lock it can always go on by itself |
| ShutdownSafety.NeverStuck | service/server.go:118-224 | once the context ended or a server returned, some goroutine can move until `run` has its result |
| ShutdownSafety.ReportedAtRest | service/server.go:163-221 | once the context ended or a server returned and no goroutine can move any more, exactly one result has been sent and `run` has returned |
| ShutdownSafety.StepDecreases | service/server.go:118-224 | every step but a signal lowers the number of steps left over all goroutines |
| ShutdownSafety.RunsAreShort | service/server.go:118-224 | apart from signals no run takes more than 35 steps |
| ShutdownSafety.VerdictOfRun | main.go:100-122 | `run` returns nil exactly when the supervisor took the context branch and every shutdown it issued was error free, which needs a signal; otherwise its one to three errors are exactly those of the branch and its shutdowns |
| ShutdownHistory.ResultFromActions | service/server.go:136-218 | in every run the result is, in order, the error with which the server of the chosen branch returned from listening, those with which the shutdowns issued were answered, and, in the context branch, the context's; `run` returns nil exactly when it is the context's alone in that branch |
| ShutdownSafety.ShutdownOrder | service/server.go:177-239 | in every run the health check server's shutdown ends before the API server's starts, and that one comes the full delay after it and after the choice of the branch |
| ShutdownHistory.ApiIsToldLast | service/server.go:177-239 | in every run the API server is told to shut down at least the delay after the select, and at least the delay after the health check server's shutdown returned, if that one was told |
| ServerLoop.HttpServers.Supervise | service/server.go:176-239 | in each branch: which servers are told, in which order and when, and which errors are reported |
| ServerLoop.RunLoop | main.go:108-122 | the first report decides, together with whether a signal came before it |
| ShutdownRefinement.SuperviseRefines | service/server.go:176-239 | from every reachable state in which the supervisor has chosen and can lock, its uninterrupted steps lead to the report, the shutdowns, their times and the clock of the method |
| ShutdownRefinement.RunLoopRefines | main.go:108-122 | in every run of the protocol, whatever goes on in between, `run` has the result of its loop over the signals and reports it has seen |
| SvcCert.Zones | service/svccert.go:363-380 | an entry is served without a request exactly up to NotAfter minus the margin; after that, or if empty, the outcome of the refresh decides, with the entry as fallback exactly before NotAfter and a failure exactly without an entry or from NotAfter on |
| SvcCert.NeverPastNotAfter | service/svccert.go:363-380 | a certificate served from the cache is never past its end when checked, exactly for margins that are not negative |
| SvcCert.SvcCertService.GetSvcCert | service/svccert.go:363-380 | the zones hold for the entry loaded, whatever time passes and whatever others store during the request, and a request is sent exactly outside the first zone |
| SvcCert.SvcCertService.RefreshSvcCert | service/svccert.go:382-433 | on success the entry and its refresh time are replaced, on failure they stay |
| SvcCert.StartSvcCertUpdater | service/svccert.go:325-351 | the loop moves its retry channel, its pauses and its end as the turn function does |
| SvcCert.RetryChannel | service/svccert.go:328-348 | for every order of turns the retry channel holds at most one signal, one exactly while a failure is owed its retry, and the updater is blocked exactly after a failed tick with a retry pending |
| SvcCert.StopsExactly | service/svccert.go:333-335 | the updater has stopped exactly when the end of the context was among its turns, and that turn is the last |
| SvcCert.PausesExactly | service/svccert.go:336-342 | it pauses 600 seconds after each failed retry and at no other time |
| SvcCert.FeasibleExactly | service/svccert.go:331-349 | an order of turns can occur exactly when nothing follows the end of the context or a failed tick with a retry pending, and each retry has a failure it is owed to |
| SvcCert.FailureLeavesRetry | service/svccert.go:336-348 | the send after a failed retry never blocks, and every failure leaves a retry pending |
| SvcCert.FailedTicksBlock | service/svccert.go:343-348 | two failed ticks with no retry in between do block the updater |
| CertSafety.RunKeeps | service/svccert.go:363-433 | at every moment of every run of requests and the updater, the flight is the last refresh, all before have ended, the cache holds the last certificate issued, and each request is where its entry and its refresh allow |
| CertSafety.OneRefreshAtATime | service/svccert.go:383-425 | in every run at most one goroutine at a time is inside a refresh |
| CertSafety.CacheIsLastIssued | service/svccert.go:418-423 | in every run the cache holds the certificate of the last refresh that got one |
| CertSafety.ZonesInEveryRun | service/svccert.go:363-380 | in every run a request enters a refresh exactly when its loaded entry was outside the first zone at its check, and its answer is that of the zone for the outcome of that refresh, whether it led the refresh or joined it |
| CertSafety.NoExpiredCertServed | service/svccert.go:363-380 | with a margin that is not negative, no run serves a certificate from the cache past its end |
| CertHistory.EnterJoinsOpenRefresh | service/svccert.go:383 | in every run whoever enters the group leads a new refresh or joins the one open at that moment |
| CertHistory.AnswerFromActions | service/svccert.go:363-425 | in every run a request is answered from the cache as it was at its load, at the times of its checks, and with the outcome that the closure of a refresh open at its entry returned |
| CertHistory.NeverStuck | service/svccert.go:363-433 | every unfinished request can act, or waits for the open refresh whose leader can |
| CertRefinement.RequestRefines | service/svccert.go:363-380 | a request nobody interrupts takes the load, the check and, only outside the first zone, a refresh and, if that is refused, the second check, and ends with the cache and answer of the object's request |
| CertRefinement.UpdateRefines | service/svccert.go:336-348 | a refresh of the updater that nobody interrupts asks for a certificate whatever the cache holds, and stores what it gets |
| DomainName.ValidDomainExactly | service/svccert.go:57 | the expression accepts exactly the texts whose dot-separated parts are not empty, of allowed characters and without a leading hyphen |
| DomainName.ValidDomainCharacters | service/svccert.go:57 | the same with the characters written out: letters, digits, underscores and, not in front of a part, hyphens |
| DomainName.HyphenatedIsOneLabel | service/svccert.go:190-195 | the hyphenated form of an accepted domain is one accepted part of the same length |
| DomainName.HyphenateCollides | service/svccert.go:194-195 | two domains get the same hyphenated form exactly when they differ at most between dots and hyphens |
| DomainName.CommonNameParts | service/svccert.go:196 | the common name by position: domain, dot, service |
| DomainName.HostNameParts | service/svccert.go:194-195 | the host name by position: service, dot, domain with hyphens for dots, dot, suffix |
| DomainName.CommonNameDetermines | service/svccert.go:196 | the common name determines domain and service when services have no dot |
| DomainName.HostNameDetermines | service/svccert.go:194-195 | for accepted domains and services without a dot, host names agree exactly when service, hyphenated domain and suffix do |
| BufferPool.NewBuffer | infra/buffer.go:31-44 | no pool exactly for size 0 |
| BufferPool.Pool.Get | infra/buffer.go:47-49 | takes a pooled buffer out, or makes an empty one of the current size |
| BufferPool.Pool.Put | infra/buffer.go:53-74 | the size becomes the maximum of itself and the capacity, the buffer is pooled empty with its capacity |
| BufferPool.SizeBounds | infra/buffer.go:53-74 | under any interleaving the size stays between the configured one and the largest capacity ever put |
| BufferPool.PoolConserves | infra/buffer.go:47-74 | under any interleaving the pool and the buffers taken from it are exactly the buffers put, emptied, with their capacities |
| BufferPool.CallsKeepBuffers | infra/buffer.go:53-74 | a call works with the buffer it was given |
| BufferPool.ShrinksExactlyAfterRace | infra/buffer.go:54-70 | a step lowers the size exactly when it is a store and, between its load and itself, the last store was one of another call with a larger capacity |
| BufferPool.MaximumExactly | infra/buffer.go:53-74 | under any interleaving the size is the maximum of the configured one and the capacities of all calls past their store exactly when the last capacity stored is the largest stored |
| BufferPool.SerialSize | infra/buffer.go:53-74 | without a load between another call's load and store the size is the maximum of the configured one and all capacities put |
| BufferPool.RaceShrinks | infra/buffer.go:53-74 | an instance of such a race: two overlapping calls leave the size at 20 after 100 was stored |

## Left out

- HTTP, TLS, certificate parsing and signing, JSON, file reads: a fetch is an answer after some delay; errors are texts.
- Percent encoding and the order of query parameters: a request is a map of parameters, an integer parameter a number.
- TokenSafety.NoExpiredTokenIsServed: stated for role tokens, whose `expiryTime` is a time; `service/access.go:315` takes the
  lifetime `expires_in` for a time, against README.md:140 and section 5.1 of RFC 6749, so nothing is stated about access
  tokens there. The same goes for TokenFlights.NoExpiredTokenIsHandedOut.
- TokenSafety.NeverStuck: says that somebody can act, not that the scheduler lets them; fairness is not modelled.
- The structure of a refresh pass under concurrency: in the step system a refresher may visit any readable key at any time,
  any number of times and with any number of retries, which covers every order and overlap of passes.
- TokenService.Service.RefreshTokenCache: one visit after the other, others acting between the visits but not between the
  attempts of one, and no attempt joining another's flight; parallel visits, joined flights and callers at any moment are
  in `TokenRefresh` and `TokenSafety`, and the object is tied to the step system by `TokenRefinement`.
- TokenService.RefreshEffect: the same restriction; without it, `TokenRefresh.RetriesAndErrors`.
- TokenService.RefreshRepeatsCalls: the same restriction; without it, `TokenRefresh.RequestsRepeatStoredCall`.
- TokenService.Service.StartUpdater: the same restriction within its passes.
- TokenService.StreamOfPasses: the same restriction within the passes.
- Requests.RoleRequestsAgree: a domain that makes the URL unparsable (control characters, incomplete percent escapes), for
  which no request is sent, and the decoding of query text that comes with a domain.
- The capacity of the updater's own channel (100) and who reads it: only the order of what is written is stated.
- ShutdownSafety.NeverStuck: lets the servers go on listening after they were told to shut down; the result does not wait
  for them, as in the code.
- The timeout of a shutdown: a call of `Shutdown` returns at any time with any error or none.
- SvcCert.SvcCertService.RefreshSvcCert: one refresh by one goroutine, with stores of others before and after; requests that
  join the refresh of another are in `CertSafety`.
- Reading the configuration, the constructors' checks of it, the `int32` conversion of the certificate expiry.
- Integer widths and saturation of durations: times and sizes are unbounded.
- `sync.Pool` dropping buffers on its own.
- `router/`, `handler/`, `config/`, `usecase/`, `service/tls.go`: thin wiring that would only add easy members.
