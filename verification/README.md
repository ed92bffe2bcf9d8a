# HEXIAM identity service: a verified model

A Dafny model of the parts of the identity and access service where several requests, processes or
stores have to agree: signing-key rotation, token revocation, sessions and embedded policies, OIDC codes
and refresh tokens, federated identities, read-through caches, the audit-log pipeline and the settings
merge. `dafny verify dfyconfig.toml` checks everything.

## How it is built

Each component has two layers.

* A state machine on values: a `State`, an `Event` per atomic step (or request), `Step`, and `Run` over a
  sequence of events. An event that is not enabled leaves the state as it is, so a theorem about `Run`
  holds for every order of events.
* Where the program changes things in place, classes or methods with the same loops and early returns,
  each proved equal to the functions of the machine.

| file | what it models |
|---|---|
| `Common.dfy`, `Bits.dfy` | shared result types; bit arithmetic on masks |
| `SigningKeys.dfy`, `KeyRotation.dfy` | one process with its keyset file; any number of processes interleaved |
| `Revocation.dfy`, `RevocationProtocol.dfy`, `RevocationRuns.dfy` | one worker's filter, replay and consumer loop; any number of workers on one Redis; what every run of them guarantees |
| `Policies.dfy` | action flags, both policy compilers, the permission check |
| `Sessions.dfy` | session rows and the revocations they cause |
| `NoStaleGrants.dfy`, `PolicyService.dfy` | policies, logins and sessions together; the request methods |
| `EndToEnd.dfy` | one machine of requests and the revocation protocol of the workers they run on |
| `Oidc.dfy`, `Races.dfy` | authorization codes and refresh tokens, request by request; their select, update and issue as separate statements, and how requests are runs of those |
| `Federation.dfy` | resolving an external subject to a local user |
| `Caches.dfy` | provider and template lists behind a cache |
| `AuditLog.dfy` | log buffer, stream, consumers |
| `Settings.dfy`, `SettingsObjects.dfy` | the merge on values, updates and the settings cache; the merge on shared mutable dictionaries |

## Assumptions

* One monotone clock. Signatures, SHA-256 and password checks are abstract; key ids are distinct.
* The modification time of the keyset file changes on every write, and reading the file together with its
  modification time is one step.
* Critical sections around the keyset lock end within 30 s (`Prompt`); for the age of the signing key,
  nobody gives up waiting for the lock to rotate (`Patient`). `StaleBreakIff` and
  `SignsWithOverdueKeyIff` say exactly what happens otherwise.
* The Bloom filter uses an arbitrary hash from items to bits. Redis stream ids are increasing numbers; an
  approximate trim keeps at least the newest 1,000,000 entries.
* A request runs on a connection set to the tenant that its X-TENANT-ID header or `client_id` names
  (`app/database/__init__.py:185-208`), while the services take the tenant of the token or client; nothing
  compares the two. Row-level security (migrations 0006, 0012, 0013 and 0016) hides from such a connection the
  rows of other tenants in `users`, `user_policies`, `tenants` and `tenant_policies`, and refuses their
  insertion. The other tables are not filtered, and the owner's connection of the sign-in callback is not bound
  by it. `conn` is the tenant of the connection.
* A login takes tenant and connection from the same header, and it is row-level security, not the query's
  text, that restricts its rows to that tenant. On a foreign connection the other policy requests find no row or
  fail their insert, and stop before any session ends (`PolicyService.dfy`), so they are no events of the runs
  in `NoStaleGrants.dfy`.
* Database requests are atomic, but for codes and refresh tokens in `Races.dfy`. A query without ORDER BY
  returns its rows in any order. The login query returns the user's policy rows that are valid at that time,
  and one null policy when there are none.
* Redis pipelines and batch inserts take effect as a whole or not at all.
* No transaction spans a request, so statements that ran before a failure stay. The outcomes of the user
  lookup, the policy fetch, the signer and the ID token are parameters of the OIDC requests and of the login.

## Where the code falls short of its stated purpose

For each: the lemma with a failing input or run, and the lemma that says, for all inputs, exactly when the
code does what it is meant to.

| what goes wrong | failing input | exact condition |
|---|---|---|
| masks are sums of flags, so a list that names an action twice grants another one | `RepeatedActionGrantsAnother` | `GrantsExactlyListedIff`: what repeated names add is a multiple of 4096 |
| the login compile keeps only the last row of a resource | `LastRowHidesEarlier` | `SameGrantsIff`: the last row lists what earlier ones list |
| a user without policy rows cannot log in with a password, because the null policy of the left join is not JSON | `LoginNeedsARow`, its instance on no rows | `LoginNeedsARow`: there is a row, and every row parses, names a resource and lists only known actions |
| workers share one consumer group and subscribe after their replay, so a revocation between the two can miss a worker for good | `WindowLosesRevocation` | `RejectsIff`, `DrainedAcceptsIff`: a route reached the worker; with nothing lost, `UndisturbedAcceptsIff` in positions only |
| a bulk assignment rewrites policies without ending sessions | `NarrowingBulkGoesStale` | `BulkAssignSafeIff`: the rows it overwrites are covered by the new policy or by other rows; for the tokens out in a reached state, `BulkSparesLiveTokensIff` |
| a token outlives the validity time of its row | `ValidityLapses` | `StaysWithinValidRowsIff`, `LoginStaysValidIff`: its pairs are granted by rows valid to its end |
| an update that only shortens the validity time ends no sessions | `ShorteningGoesStale` | `UnrevokedUpdateSafeIff`: each listed action stays covered as long as before |
| a redemption that fails after the code check spends the code | `SignerFailureSpendsCode` | `FailedRedemptionKeepsCodeIff`: the code check was not passed |
| a refresh that fails after the token check ends the session | `SignerFailureEndsSession` | `FailedRotationKeepsTokenIff`: the token check was not passed |
| two requests that select a code, or a refresh token, before either marks it are both answered with tokens | `OverlappingRedemptions` | `IssuesTwiceIff`: no request selects a row that another one holds |
| a template list read on another tenant's connection is cached empty, and answers the tenant's own reads for up to 30 s; a foreign read that hits is answered the list it cannot see | `ForeignReadEmptiesList` | `ApiRunsMatchUncachedIff`: every template read is on its tenant's connection, or finds that tenant without templates; interleaved, `HitsStayCurrentIff` |
| a linked subject is refused in a token exchange whose connection is set to another tenant | `ForeignExchangeIsRefused` | `SubjectAlwaysResolvesToSameUser`: the connection sees the tenant's users |
| a settings update on another tenant's connection is answered with success and stores nothing | `ForeignUpdateIsLost` | `ReadAfterUpdateIff`, over runs `AllUpdatesReadIff`: the connection is the tenant's own, or the update asks for nothing new |
| the settings cache is never invalidated | `UpdateReadsStale` | `Settings.CachingIsInvisibleIff`: no stored update asks for something new while the tenant is cached, and reads through the cache are on the tenant's connection or find the defaults; age bound in any case: `HitsAreRecent` |
| overlapping flushes reorder log entries | `OverlappingFlushesReorder` | `StepKeepsOrderIff`, `StreamInOrderIff`: each batch that lands is newer than the stream |
| log entries are dropped, also by a flush that `stop()` cancels | `CancelledFlushLosesEntry` | `DropsIff`: no failed flush above a hundred entries and no cancelled one |
| a cached read that overlaps a write leaves the old list in the cache | `RacingReadGoesStale` | `FillIsCurrentIff`, `HitsStayCurrentIff`: writes since the fetch left the list as it was, or a deletion is still to come; age bound: `StalenessIsBounded` |
| a settings section stored as a plain value reads back with defaults mixed in after a partial update; the routes only pass dictionaries, so such a section can only be written into the row directly | `LostSectionRefills` | `ReadAfterUpdateIff` |
| a critical section longer than 30 s is broken into | `StaleBreakIff`, at any holder | `StaleBreakIff`: the holder has been inside for more than 30 s |
| a crashed holder leaves its lock file, and two waiting processes that both look at its age before either removes it both enter | `CrashAdmitsTwoIff`, at any holder | `CrashAdmitsTwoIff`: that file is older than 30 s |
| a process that gives up a due rotation has already recorded the check, and its next requests sign with the overdue key | `GivingUpSignsWithOverdueKey` | `SignsWithOverdueKeyIff`: exactly while nobody else wrote the keyset |

## Model

| member | source | states |
|---|---|---|
| SigningKeys.PruneKeeps | app/core/signing_keys.py:293-300 | a key stays exactly when it is the active one, or its creation plus the retention is not past, or it was created only now |
| SigningKeys.PruneDropsPrefix | app/core/signing_keys.py:293-300 | on keys in creation order it only ever cuts the oldest ones off |
| SigningKeys.DecodeFindsSigner | app/core/signing_keys.py:152-181 | a keyset holding the signer decodes the token to its payload, or reports expiry, and nothing else |
| SigningKeys.DecodeNeedsSigner | app/core/signing_keys.py:152-181 | a keyset without the signer never decodes the token |
| SigningKeys.SigningKeyManager.GetActiveKey | app/core/signing_keys.py:302-307 | the loop finds the first key with the active kid, and fails exactly when there is none |
| SigningKeys.SigningKeyManager.PruneKeys | app/core/signing_keys.py:293-300 | the loop returns just the keys that are active or whose creation plus the retention is not past |
| SigningKeys.SigningKeyManager.GetCandidateKeys | app/core/signing_keys.py:309-314 | exactly the keys carrying the kid, or the whole list when there are none or no kid is given |
| SigningKeys.SigningKeyManager.EnsureStateLoaded | app/core/signing_keys.py:227-239 | the cached keyset is the one on disk, or a first one is written; it fails only on a held lock, changing nothing |
| SigningKeys.SigningKeyManager.MaybeRotate | app/core/signing_keys.py:265-291 | rotates exactly when the check is due and the key is old; otherwise the file stays; the check time advances once per interval |
| SigningKeys.ReadyMeans | app/core/signing_keys.py:227-300 | what an ensure_ready call leaves on disk: a first key; the file as it is; or, when rotation is enabled, the check due and the active key an interval old, the new key with the old ones the retention still covers |
| SigningKeys.SigningKeyManager.SignToken | app/core/signing_keys.py:113-129 | the token carries the kid of the active key of the keyset then on disk |
| SigningKeys.SigningKeyManager.DecodeToken | app/core/signing_keys.py:152-181 | the answer is that of the candidate keys tried in turn; success means an unexpired token whose signer is in the file |
| KeyRotation.StepKeepsInv | app/core/signing_keys.py:227-300 | every step of every process keeps the lock, keyset, token and cache invariants |
| KeyRotation.RotatedSucceeds | app/core/signing_keys.py:279-300 | a rotation of an ordered keyset is ordered, ends in the new key, keeps just the old keys whose creation plus the retention is not past, and spans at most the retention |
| KeyRotation.LockFileExcludes | app/core/signing_keys.py:366-398 | for any number of processes whose critical sections are prompt, no two are ever between taking and leaving the lock file |
| KeyRotation.KeysetsAreBounded | app/core/signing_keys.py:257-300 | every keyset ever written ends in its active key, has keys one interval apart and at most retention / interval + 1 of them; one key only without rotation or retention |
| KeyRotation.RotationsHappenOnce | app/core/signing_keys.py:227-239 | one first keyset; every later one adds exactly one key, an interval younger than all before, and loses only keys past retention |
| KeyRotation.SignedTokensDecode | app/core/signing_keys.py:98-181 | a signed token decodes at every process until its expiry or the end of its key's retention, whatever was rotated or pruned since |
| KeyRotation.SigningKeyAge | app/core/signing_keys.py:265-291 | while nobody gives up a due rotation, no request is let through with a key older than the interval plus the check interval |
| KeyRotation.UnexpiredTokensDecode | app/core/signing_keys.py:98-181 | every unexpired token verifies when rotation delay plus lifetime fit in the retention |
| KeyRotation.StaleBreakIff | app/core/signing_keys.py:377-384 | a waiting process breaks into the critical section exactly when the holder has been inside for more than 30 s |
| KeyRotation.CrashAdmitsTwoIff | app/core/signing_keys.py:373-384 | after the holder crashed, two waiting processes that look at the lock before either breaks it both enter, at once, iff the file it left is older than 30 s |
| KeyRotation.GivingUpSignsWithOverdueKey | app/core/signing_keys.py:265-281 | after giving up a due rotation, the next request of that process signs with the overdue key |
| KeyRotation.SignsWithOverdueKeyIff | app/core/signing_keys.py:265-281 | after a process gave up a due rotation, whatever others do, its next request within the check interval signs with the overdue key iff nobody wrote a keyset in between |
| Policies.SumIsUnionIffDistinct | app/models/authz.py:11-23 | the sum of the flags is their union exactly when no flag is named twice |
| Policies.GrantsExactlyListedIff | app/core/auth.py:68-71 | the embedded sum grants exactly the listed actions iff what repeated names add is a multiple of 4096 |
| Policies.RepeatedActionGrantsAnother | app/core/auth.py:68-71 | listing read twice grants write |
| Policies.CheckReadsBit | app/core/authz.py:24-27 | the permission check is the test of one bit of the resource's mask |
| Policies.SumKnownFlags | app/sso/oidc/endpoints.py:109 | the generator sum skips unknown names |
| Policies.LetterCase | app/core/authz.py:26 | letter case is folded for the letters A to Z and nothing else |
| Policies.ActionFlags | app/models/authz.py:11-23 | the twelve action names, in any letter case, and the values of their flags; any other name has none |
| Policies.FetchUserPolicies | app/sso/oidc/endpoints.py:95-112 | the two loops compute the or-fold; on lists without repeats a permission is granted iff some row lists it |
| Policies.FoldMeaning | app/sso/oidc/endpoints.py:103-112 | checking a permission on the folded masks succeeds exactly when some row on that resource lists the action |
| Policies.LoginMeaning | app/core/auth.py:65-71 | checking on the login masks succeeds exactly when the last row on that resource lists the action |
| Policies.LoginGrantsSubset | app/core/auth.py:68-71 | a login grants nothing the or-fold of the same rows would not |
| Policies.SameGrantsIff | app/core/auth.py:68-71 | both compilers grant the same exactly when the last row of each resource lists whatever earlier rows list |
| Policies.LastRowHidesEarlier | app/core/auth.py:68-71 | two rows on a resource, the first listing read and the second write: the login loses read, the or-fold keeps it |
| Policies.LoginNeedsARow | app/core/auth.py:65-71 | a login compiles iff there is a policy row and every row parses, names a resource and lists only the twelve actions; without rows it is an internal error |
| Revocation.NoFalseNegatives | app/core/token_revocation.py:204-206 | an added item is reported for ever, whatever is added later |
| Revocation.BitsComeFromItems | app/core/token_revocation.py:204-206 | a bit of the filter is set iff some added item sets it |
| Revocation.TokenRevocationManager.LoadExistingRevocations | app/core/token_revocation.py:120-145 | the paged loop ends, visits every entry once and in order for any page size, adds exactly the ids present and counts them |
| Revocation.NextPage | app/core/token_revocation.py:126-143 | a page read with the exclusive cursor continues exactly where the previous one ended; an empty page means the end |
| Revocation.TokenRevocationManager.RevokeToken | app/core/token_revocation.py:147-188 | the id is in the local filter whether or not Redis works; true is returned exactly when the entry was appended |
| Revocation.TokenRevocationManager.RevokeUserTokens | app/core/token_revocation.py:190-202 | every id is revoked once, in order; the count is how many reached the stream |
| Revocation.TokenRevocationManager.ConsumeMessages | app/core/token_revocation.py:227-233 | each entry is added before it is acknowledged; a failing acknowledgement abandons the rest |
| Revocation.AcknowledgedArePresent | app/core/token_revocation.py:227-233 | the id of every acknowledged entry of a delivery is in the filter |
| Revocation.TokenRevocationManager.ReceiveMessage | app/core/token_revocation.py:263-269 | after a channel message its id is reported; the filter changes only if it was not |
| Revocation.ReplayRejects | app/main.py:101-112 | after a replay the middleware rejects every id still in the stream |
| Revocation.AcceptsIff | app/main.py:101-112 | a token without an id is refused whatever the filter holds; one with an id passes iff some bit of it is not set |
| RevocationProtocol.StepKeepsInv | app/core/token_revocation.py:98-279 | every step of every worker keeps the invariant on log, group, channel and filters |
| RevocationRuns.Convergence | app/core/token_revocation.py:98-118 | a drained worker rejects every published id unless the message was lost or the revocation fell between its replay and its subscription |
| RevocationRuns.RejectsIff | app/core/token_revocation.py:98-279 | in every run a running worker rejects an id, false positives apart, iff the id reached it by its own call, its replay, a delivery it took or a message it read |
| RevocationRuns.DrainedAcceptsIff | app/core/token_revocation.py:98-118 | a drained worker still accepts an id iff it did not revoke it, neither replayed nor took any entry of it, and every message of it preceded the subscription or was lost |
| RevocationRuns.UndisturbedAcceptsIff | app/core/token_revocation.py:112-116 | with nothing lost, trimmed or abandoned this is a matter of positions: entries after the replay handed elsewhere, messages before the subscription |
| RevocationRuns.SourcedIsHeld | app/core/token_revocation.py:98-279 | what reached a running worker by any route is in its filter |
| RevocationRuns.EveryRouteIsHeld | app/core/token_revocation.py:98-279 | a worker holds what it revoked, replayed, was handed (but for what is in hand or abandoned) and received |
| RevocationRuns.OnlyThroughARoute | app/core/token_revocation.py:98-279 | an id that came by none of the routes was never added |
| RevocationRuns.AddedWasRevoked | app/core/token_revocation.py:147-162 | every id added to any filter was passed to some revoke call |
| RevocationRuns.UnrelatedTokensPass | app/main.py:106-112 | a token with a bit that no revoked id sets is accepted |
| RevocationProtocol.FiltersGrow | app/core/token_revocation.py:147-279 | filters only grow while a worker runs |
| RevocationProtocol.RejectionIsStable | app/main.py:109-110 | a rejected id stays rejected until the worker restarts |
| RevocationProtocol.RevocationIsHeard | app/core/token_revocation.py:147-186 | a call that gets through to the channel is rejected by every other worker that then reads the message, the stream working or not |
| RevocationProtocol.ReadingCatchesUp | app/core/token_revocation.py:242-279 | a subscribed worker that reads on has every waiting id in its filter after as many messages as are waiting |
| RevocationProtocol.ReplayCompletes | app/core/token_revocation.py:120-143 | a replay left alone ends, whatever the page size, and then the worker rejects every id it found in the stream |
| RevocationProtocol.TakingCatchesUp | app/core/token_revocation.py:208-240 | a worker that goes on taking entries ends with all that the group had left in its filter and acknowledged |
| RevocationProtocol.RevokeCallMeans | app/core/token_revocation.py:160-186 | a call appends one entry, then publishes one message naming it; failures skip just that; a call of a stopped worker goes no further |
| RevocationProtocol.HandleThenAckMeans | app/core/token_revocation.py:226-240 | an entry is acknowledged after its id is added, and alone; a failing acknowledgement gives up the rest of the delivery |
| RevocationRuns.HandedAtMostOnce | app/core/token_revocation.py:215-223 | no stream position is handed out twice, to whichever workers |
| RevocationRuns.AcknowledgedIsHeld | app/core/token_revocation.py:227-233 | an acknowledged entry was handed to that worker and is in its filter while it runs |
| RevocationRuns.RestartedWorkerRejects | app/core/token_revocation.py:120-145 | with at most a full stream of appends an hour, a restarted worker rejects every unexpired revoked login token its replay reached |
| RevocationRuns.PresentIsRejectedAfterRestart | app/core/token_revocation.py:98-145 | with at most a full stream of appends an hour, every revocation appended while a worker is down is rejected by it once it is up, while the login token is unexpired, whatever happens in between |
| RevocationRuns.ReplayReachesPresent | app/core/token_revocation.py:120-145 | with concurrent appends a replay covers at least the entries present when it started |
| RevocationRuns.WindowLosesRevocation | app/core/token_revocation.py:112-116 | a run without any failure after which a drained worker accepts a revoked token |
| Sessions.GroupByUser | app/services/session_service.py:377-382 | the dictionary loop gives each user the list of exactly their rows, in order |
| Sessions.GroupsPartition | app/services/session_service.py:377-385 | publishing the groups publishes every row once, under its own user |
| Sessions.CreateSession | app/services/session_service.py:23-42 | a new row, or nothing when the id exists |
| Sessions.RevokeSession | app/services/session_service.py:135-157 | true iff the row exists, is unrevoked and has exactly this user and tenant; then only that row is marked and only its id published, otherwise nothing changes |
| Sessions.RevokeAllSessions | app/services/session_service.py:160-224 | exactly the user's active rows but the excluded one are marked and published once; the count is theirs |
| Sessions.RevokeAllIsExact | app/services/session_service.py:160-224 | afterwards only the excluded session is active, no other user's row changed, and the selected rows are the changed ones |
| Sessions.AdminRevokeSession | app/services/session_service.py:310-339 | true iff the row exists, is unrevoked and of that tenant; then only that row is marked, and published under its owner, otherwise nothing changes |
| Sessions.AdminBulkRevokeSessions | app/services/session_service.py:342-394 | every matching active row is marked and published once under its owner; the count is the rows changed |
| Sessions.BulkIgnoresNoise | app/services/session_service.py:356-372 | repeated ids and ids of other tenants or revoked rows change nothing |
| Sessions.CleanupExpiredSessions | app/services/session_service.py:227-235 | exactly the rows expired for seven days go, and they are counted |
| Sessions.RevokesIsStep | app/services/session_service.py:135-394 | what the methods establish is one step of the run model |
| Sessions.StepKeepsInvIff | app/services/session_service.py:33-42 | the run invariant is kept exactly when a new row does not reuse the id of a revoked and cleaned-up one |
| Sessions.RevokedExactlyPublished | app/services/session_service.py:135-394 | in every run a row is marked revoked iff its id was published, and then once, under its owner |
| Sessions.EndedByItsOwnIff | app/services/session_service.py:135-394 | in every run a session keeps its user, tenant and expiry, and is revoked iff some request of its own user in its own tenant, or of an administrator of that tenant, covered it |
| Sessions.CleanedOnlyWhenOld | app/services/session_service.py:227-235 | in every run a row goes only by a cleanup more than seven days after its expiry |
| Sessions.PublishedArePresent | app/core/token_revocation.py:162 | the handling worker's filter reports every published id |
| NoStaleGrants.LoginFits | app/core/auth.py:65-80 | every pair a new token embeds is listed by a policy row of the user that is valid at that moment |
| NoStaleGrants.StaysWithinValidRowsIff | app/core/auth.py:47-80 | with unchanged rows a token stays within the rows valid at each moment iff it is within those valid at its last |
| NoStaleGrants.LoginStaysValidIff | app/core/auth.py:47-80 | a login token stays within valid rows for its whole life iff, at login, each embedded pair is listed by a row valid to the end of the token |
| NoStaleGrants.StepKeepsInv | app/services/policy_service.py:75-208 | every request that respects the guards keeps each unexpired token tied to its session row and either revoked or covered by the policy rows, whatever their validity or, under the stricter guards, by rows valid to its end |
| NoStaleGrants.NoStaleGrant | app/main.py:101-112 | in every run, a token a caught-up worker accepts grants only what the user's policy rows list; when logins, updates and bulk assignments respect validity, only what rows valid at that moment list |
| NoStaleGrants.NoStaleGrantOnHandler | app/services/policy_service.py:127-197 | on the worker that handles the requests both forms hold without any assumption on deliveries |
| NoStaleGrants.UnrevokedIsUpToDate | app/services/policy_service.py:127-197 | a live token whose id was never revoked is up to date, in both forms |
| NoStaleGrants.HandlerIsCaughtUp | app/core/token_revocation.py:162 | the handling worker has every revocation in its filter, in every run |
| NoStaleGrants.UnrevokedWriteIff | app/services/policy_service.py:234-265 | any write that ends no sessions is safe for all tokens iff no user loses a pair, or a moment of one |
| NoStaleGrants.UnrevokedUpdateSafeIff | app/services/policy_service.py:127-151 | an update that ends no sessions is safe for all tokens iff every listed action stays covered by the new row or another one |
| NoStaleGrants.BulkKeepsIff | app/services/policy_service.py:234-265 | a bulk assignment loses no user a pair iff, for every listed user with an old row and every action it lists, the new policy lists it on that resource or another row of that user does |
| NoStaleGrants.BulkAssignSafeIff | app/services/policy_service.py:234-265 | the same guard says exactly when a bulk assignment is safe for whatever tokens are out |
| NoStaleGrants.BulkSparesLiveTokensIff | app/services/policy_service.py:234-265 | in every reached state, an assignment leaves all live tokens within the rows iff each pair a listed user's live token embeds stays granted |
| NoStaleGrants.WideningBulkKeeps | app/services/policy_service.py:234-256 | an assignment over missing rows, or rows whose resource and actions it repeats, meets that guard |
| NoStaleGrants.NarrowingBulkGoesStale | app/services/policy_service.py:234-265 | a run in which a bulk assignment leaves an accepted token with a permission no row lists |
| NoStaleGrants.ValidityLapses | app/core/auth.py:47-80 | a run in which an accepted token outlives the validity of its policy row |
| NoStaleGrants.ShorteningGoesStale | app/services/policy_service.py:127-151 | a run in which an update that shortens the validity time leaves an accepted token that no valid row covers |
| NoStaleGrants.ValidatedDistinct | app/models/policy.py:12-23 | validated lists keep flags apart once repeated strings are dropped |
| NoStaleGrants.UpdateMeans | app/services/policy_service.py:114-171 | an accepted update, from the old row and the request: flags, resource and validity as requested or as before, no other row changed, and the user's sessions end iff the resource is not repeated or an action is no longer requested; a refused one changes nothing |
| NoStaleGrants.CreateMeans | app/services/policy_service.py:75-111 | a created row has the resource, flags and validity asked for; an unknown action or a taken id changes nothing |
| NoStaleGrants.DeleteMeans | app/services/policy_service.py:174-208 | a deletion removes that row alone and ends exactly the user's sessions in the tenant |
| NoStaleGrants.LoginMeans | app/core/auth.py:65-93 | a login issues one token and one session for an hour; the permission check grants from it what the last row on the resource lists |
| NoStaleGrants.SessionRequestMeans | app/services/session_service.py:135-394 | a session request writes no policy and issues no token; it revokes exactly the active sessions it covers |
| EndToEnd.RequestIsStep | app/core/token_revocation.py:147-202 | in the joint machine a request changes policies, sessions, revoked ids and filters exactly as in the machine of requests alone, its revocations being calls of the protocol |
| EndToEnd.StaleTokenWasNotReached | app/main.py:101-112 | in every joint run, a token that a worker accepts although the rows no longer grant what it embeds was revoked on some worker, and the revocation reached that worker by no route |
| EndToEnd.DrainedAcceptsStaleOnlyIfMissed | app/core/token_revocation.py:98-118 | a drained worker accepts a stale token only if it missed every message and every entry of its revocation |
| EndToEnd.DrainedAcceptsIff | app/core/token_revocation.py:98-118 | false positives apart, a drained worker accepts of the live tokens exactly those never revoked, which are up to date, and those whose revocation it missed |
| PolicyService.CreatePolicy | app/services/policy_service.py:75-111 | a new validated row, a conflict when the id exists, a rejected action, or the row-level check on a foreign connection; nothing else changes |
| PolicyService.UpdatePolicy | app/services/policy_service.py:114-171 | rows, sessions and filter change as in the model, or not at all on a foreign connection; sessions end only if the resource is not repeated or an action is dropped |
| PolicyService.DeletePolicy | app/services/policy_service.py:174-208 | the row goes and all the user's sessions end, or not-found, also on a foreign connection, and nothing changes |
| PolicyService.BulkAssignPolicy | app/services/policy_service.py:234-275 | the records are upserted one after the other, or none on a foreign connection; sessions are untouched |
| PolicyService.Authenticate | app/core/auth.py:34-101 | a login succeeds iff user, password, rows and signer are in order; the token embeds the compiled rows and a session row with the same expiry is stored; any failure stores nothing |
| Oidc.StepKeepsInvIff | app/sso/oidc/services.py:71-141 | the lineage invariant is kept exactly when a new code is not one redeemed before |
| Oidc.CodeYieldsTokensOnce | app/sso/oidc/endpoints.py:698-749 | in every run each code is redeemed at most once (section 4.1.2 of RFC 6749) |
| Oidc.OneLiveTokenPerCode | app/sso/oidc/endpoints.py:790-829 | at most one unrevoked refresh token descends from a code |
| Oidc.DescendantsKeepIdentity | app/sso/oidc/endpoints.py:747-829 | descendants carry the code's client, user and tenant (section 6 of RFC 6749) |
| Oidc.RedeemSucceedsIff | app/sso/oidc/endpoints.py:698-780 | a redemption answers with tokens iff client, secret, code, redirect, expiry and verifier are right, as spelled out, and lookup, policies, signer, refresh row and a requested ID token all succeed; it marks the code and stores one row of its identity for seven days |
| Oidc.FailedRedemptionKeepsCodeIff | app/sso/oidc/endpoints.py:698-780 | a failed redemption changes nothing iff it did not pass the code check; otherwise the code is spent, and a refresh row is left iff only the ID token failed |
| Oidc.ConsentStoresIff | app/sso/oidc/endpoints.py:606-647 | an approved consent for existing rows, and no other, stores an unused code for ten minutes with what the form carried |
| Oidc.WrongVerifierNeverRedeems | app/sso/oidc/services.py:119-133 | over every run after a consent with a challenge, no redemption with a missing verifier or one that does not yield it, by its method, ever answers with tokens (section 4.6 of RFC 7636) |
| Oidc.RightVerifierRedeems | app/sso/oidc/services.py:119-133 | after a consent with the challenge s256(v), the client redeems the code with v in time, whatever happened to others in between |
| Oidc.ExchangeSucceedsIff | app/sso/oidc/endpoints.py:858-945 | a token exchange answers with tokens iff the client is right and the later steps succeed; its refresh token carries that user and descends from no code |
| Oidc.DeletionsMean | app/database/migrations/0010_create_authorization_codes.py:16-22 | deleting a user or a client deletes exactly the rows that refer to it; a deactivated client keeps its rows |
| Oidc.SpentCodeStaysSpent | app/sso/oidc/services.py:96-141 | a spent code is refused for ever after, also when it yielded no tokens |
| Oidc.SignerFailureSpendsCode | app/sso/oidc/endpoints.py:712-745 | the right client redeems in time for a visible user, the signer raises, and the code is spent without tokens |
| Oidc.WrongVerifiersKeepCode | app/sso/oidc/services.py:121-133 | any number of attempts with a missing or wrong verifier are refused and leave everything as it was (section 4.6 of RFC 7636) |
| Oidc.StaysRedeemable | app/sso/oidc/services.py:96-141 | any number of failed attempts leaves the code row unchanged |
| Oidc.RedeemsAfterFailures | app/sso/oidc/endpoints.py:698-780 | after any number of failed attempts, those with wrong verifiers included, the right client still redeems the code before it expires, when the later steps succeed |
| Oidc.RotateSucceedsIff | app/sso/oidc/endpoints.py:782-836 | a refresh succeeds iff client, secret and token are right, as spelled out, and the later steps succeed; it revokes the old token and stores one new one with the same identity for seven days |
| Oidc.FailedRotationKeepsTokenIff | app/sso/oidc/endpoints.py:782-836 | a failed refresh changes nothing iff it did not pass the token check; otherwise the old token is revoked and none replaces it |
| Oidc.FailedRotationEndsSession | app/sso/oidc/endpoints.py:809-829 | after such a failure no continuation of the run has a usable refresh token descending from that code |
| Oidc.SignerFailureEndsSession | app/sso/oidc/endpoints.py:809-826 | a run whose first refresh loses the only refresh token because the signer raises |
| Oidc.RotatedTokenStaysDead | app/sso/oidc/services.py:198-230 | a rotated token is never accepted again in any run that does not draw its id anew |
| Oidc.OidcService.StoreAuthorizationCode | app/sso/oidc/services.py:71-94 | an unused row expiring in ten minutes, or nothing when the code exists |
| Oidc.OidcService.ValidateAuthorizationCode | app/sso/oidc/services.py:96-141 | the branches accept exactly an unused, unexpired code of this client and redirect whose challenge the verifier yields, and mark only that used |
| Oidc.OidcService.CreateRefreshToken | app/sso/oidc/services.py:181-196 | an unrevoked row expiring in seven days, or nothing when the id exists |
| Oidc.OidcService.ValidateRefreshToken | app/sso/oidc/services.py:198-219 | returns the row of exactly the unrevoked, unexpired tokens of that client |
| Oidc.OidcService.RevokeRefreshToken | app/sso/oidc/services.py:221-230 | marks that row and no other |
| Oidc.OidcService.ConsentSubmit | app/sso/oidc/endpoints.py:606-647 | without a session or on deny nothing is stored; otherwise the code carries the session user, an empty challenge counts as none, and missing client or user rows fail the insert |
| Oidc.OidcService.RedeemCode | app/sso/oidc/endpoints.py:698-780 | the branch answers and changes the tables as the model's redemption, failures of the later steps included |
| Oidc.OidcService.RotateToken | app/sso/oidc/endpoints.py:782-836 | the branch answers and changes the tables as the model's rotation, failures of the later steps included |
| Races.StepKeepsInvIff | app/sso/oidc/services.py:104-139 | with select, mark and issue as separate steps, single use is kept iff no request selects a row that another one holds unmarked |
| Races.IssuesTwiceIff | app/sso/oidc/services.py:104-139 | for any number of requests at once: at some moment of a run two open requests can finish with tokens for the same code iff one selected a row another held |
| Races.GuardedRunsIssueOnce | app/sso/oidc/endpoints.py:790-829 | in runs without such a selection, tokens are issued at most once for each code and each refresh token |
| Races.AtomicRunsIssueOnce | app/sso/oidc/endpoints.py:698-829 | requests taken one at a time are such runs |
| Races.OidcRunsAreAtomicRuns | app/sso/oidc/endpoints.py:698-780 | every run of OIDC requests is, statement by statement, a run of this machine with one request at a time, issuing tokens for the same codes in the same order, each once |
| Races.OverlappingRedemptions | app/sso/oidc/services.py:104-139 | two requests that both select a code before either marks it both get tokens |
| Federation.StepKeepsInv | app/services/federation_service.py:274-324 | every request keeps links tenant-local and injective, and addresses and issuers unique |
| Federation.IdentityIsInjectiveAndLocal | app/database/migrations/0019_create_federated_identities.py:14-23 | in every run two subjects of a provider never share a user, and links stay inside their tenant |
| Federation.SubjectAlwaysResolvesToSameUser | app/services/federation_service.py:274-288 | a subject once resolved resolves to the same user while user and provider exist, whatever its claims, iff the connection sees the tenant's users; otherwise it is refused; nothing changes either way |
| Federation.ForeignExchangeIsRefused | app/sso/oidc/endpoints.py:883-898 | a run after which a linked subject resolves on its tenant's connection and is refused on another |
| Federation.LinkIsStable | app/services/federation_service.py:315-323 | no run that keeps user and provider changes a link's user |
| Federation.JoinsExistingUserIff | app/services/federation_service.py:265-315 | exactly when an unlinked subject is joined to an existing user: connection, automatic linking, address, no other link, and, where asked for, a claim that is true, truthy or the word true in any letter case; the link is all that changes |
| Federation.UnverifiedIsRefused | app/services/federation_service.py:295-299 | where verified addresses are asked for and the address is taken, a missing, false, falsy or other claim is refused and nothing is linked |
| Federation.MakesUserIff | app/services/federation_service.py:299-324 | exactly when a new user is made, and the whole row: tenant, claimed or made-up address, verified flag; and its link |
| Federation.OnlyEnabledIssuersResolve | app/services/federation_service.py:251-257 | only the enabled provider of the tenant and issuer answers; without automatic linking it knows linked subjects only |
| Federation.UserRequestsMean | app/database/migrations/0019_create_federated_identities.py:12-22 | a user is added iff id and address are free; a deletion takes exactly that user's links along |
| Federation.ProviderRequestsMean | app/services/federation_service.py:121-202 | a provider is written iff the tenant has no other one with its issuer, and only for its own tenant; a deletion takes exactly its links along |
| Federation.FailedResolveChangesNothing | app/services/federation_service.py:274-324 | a failed resolution leaves no trace, in particular no unlinked user |
| Federation.ResolveTouchesOnlyItsSubject | app/services/federation_service.py:274-324 | a resolution changes at most the subject's link and one new user |
| Federation.IssuerNamesOneProvider | app/services/federation_service.py:251-257 | at most one enabled provider of a tenant answers for an issuer |
| Federation.FindOrCreateLocalUser | app/services/federation_service.py:274-324 | the statements, on what the connection sees, give the result and the tables of the model's resolution |
| Caches.OnlyInvalidatedListsChange | app/services/federation_service.py:121-202 | a write changes no list but the one whose key it deletes |
| Caches.SeenIffOwn | app/database/migrations/0012_enable_rls_tenant_policies.py:27-30 | a connection sees a tenant's list iff that list is under no row-level security, the connection is set to the tenant, or the list is empty |
| Caches.ListIsNewestFirst | app/services/policy_service.py:392-403 | the list is exactly the tenant's rows, in reverse order of creation |
| Caches.ProviderWritesMean | app/services/federation_service.py:121-202 | what a provider creation or update leaves in the table: the new row last, the given fields replaced in one row; and exactly when it is rejected or finds nothing |
| Caches.ProviderDeletesMean | app/services/federation_service.py:187-202 | a provider deletion takes that row alone, or finds nothing |
| Caches.TemplateWritesMean | app/services/policy_service.py:332-525 | the same for templates, where a foreign connection is refused or finds nothing |
| Caches.TemplateDeletesMean | app/services/policy_service.py:500-525 | a template deletion takes that row alone on its tenant's connection, and finds nothing on another |
| Caches.StepIsInvisibleIff | app/services/policy_service.py:382-406 | a request keeps the cache coherent and is answered as without it iff it is a read on a connection that sees the list, or a write that deletes the key or changes no cached list |
| Caches.CachingIsInvisibleIff | app/services/federation_service.py:87-113 | over every run from a coherent cache, the cache cannot be noticed at any moment iff each request is of that kind |
| Caches.ApiRunsMatchUncachedIff | app/services/policy_service.py:382-406 | from an empty cache, with writes that delete their key, any run of reads, writes, expiries and evictions matches the uncached service throughout iff no template read is on a foreign connection while its tenant has templates |
| Caches.CoherentIffInvisible | app/services/federation_service.py:87-113 | coherence is exactly indistinguishability from the uncached service over all safe continuations |
| Caches.ForeignReadEmptiesList | app/services/policy_service.py:392-406 | a foreign read followed by an own one: the tenant is answered an empty list although it has a template |
| Caches.StalenessIsBounded | app/services/federation_service.py:111-112 | under any interleaving a cached list is what its reader's connection saw at most the time to live plus one read ago, which was the tables' list iff the connection was the tenant's own or the list empty |
| Caches.MoveKeepsCurrentIff | app/services/federation_service.py:92-112 | one interleaved step keeps every hit current iff it is no late fill and no unconnected change of a cached list |
| Caches.FillIsCurrentIff | app/services/federation_service.py:92-112 | a fill leaves the entry current iff its connection was the tenant's own and the writes since its fetch left that list as it was, or it was foreign and the tenant has no templates |
| Caches.HitsStayCurrentIff | app/services/policy_service.py:382-406 | in every interleaved run, hits are the tables' lists at every moment iff each fill is of that kind or has a deletion to follow, and every write is connected or changes no cached list |
| Caches.RacingReadGoesStale | app/services/federation_service.py:92-112 | a read overlapping a connected write can leave the old list cached |
| Caches.FetchRows | app/services/policy_service.py:392-403 | the append loop collects exactly the tenant's rows, newest first |
| Caches.ListIdentityProviders | app/services/federation_service.py:87-113 | answers from a live entry, else the tenant's rows newest first, cached for 60 s |
| Caches.CreateIdentityProvider | app/services/federation_service.py:121-146 | inserts an OIDC provider with a new issuer and deletes the key; a rejected one changes nothing |
| Caches.UpdateIdentityProvider | app/services/federation_service.py:149-192 | patches the row and deletes the key; a missing provider leaves the cache alone |
| Caches.DeleteIdentityProvider | app/services/federation_service.py:195-202 | deletes the row if any, and the key in any case |
| Caches.ListTemplates | app/services/policy_service.py:382-406 | answers from a live entry, else the rows the connection sees newest first, cached for 30 s |
| Caches.CreateTenantPolicyTemplate | app/services/policy_service.py:345-371 | inserts a template and deletes the key, or is rejected by the row-level check |
| Caches.UpdateTenantPolicyTemplate | app/services/policy_service.py:467-497 | rewrites the given fields and deletes the key, or not-found before any of it |
| Caches.DeleteTenantPolicyTemplate | app/services/policy_service.py:508-525 | deletes the template and the key, or not-found before any of it |
| AuditLog.EveryEntryInOnePlace | app/audit_logs/redis_logger.py:88-125 | whatever flushes overlap and fail, each published entry is exactly once in stream, flight, buffer, drops or refusals |
| AuditLog.DropsIff | app/audit_logs/redis_logger.py:112-116 | entries are dropped exactly by a failed flush of more than 100 batch or buffer entries, or by cancelling a running one |
| AuditLog.CancelledFlushLosesEntry | app/audit_logs/redis_logger.py:65-76 | a published entry whose flush is cancelled is in no store any more |
| AuditLog.FailureKeepsOldest | app/audit_logs/redis_logger.py:112-116 | a failed flush leaves the first hundred of its batch and then of the buffer, whatever their sizes, and drops exactly the rest |
| AuditLog.SerialFlushesKeepOrder | app/audit_logs/redis_logger.py:88-116 | with one flush at a time the stream is in publication order |
| AuditLog.StepKeepsOrderIff | app/audit_logs/redis_logger.py:98-111 | a step keeps the stream in publication order iff it is no flush landing with a batch that is out of order or older than the stream |
| AuditLog.StreamInOrderIff | app/audit_logs/redis_logger.py:88-140 | in every run, overlapping and failing flushes included, the stream ends in publication order iff each landing batch is in order and newer than the stream |
| AuditLog.OverlappingFlushesReorder | app/audit_logs/redis_logger.py:90-111 | two overlapping successful flushes can swap entries |
| AuditLog.AcknowledgedIsStored | app/audit_logs/consumer.py:130-139 | every acknowledged entry is in the table |
| AuditLog.StoredAtMostOnce | app/audit_logs/consumer.py:94-163 | end to end, with any number of consumers, no published entry is stored twice |
| AuditLog.StoredInPublicationOrder | app/audit_logs/consumer.py:94-163 | with serial flushes and one consumer, rows are stored in publication order |
| AuditLog.RedisLogBuffer.Flush | app/audit_logs/redis_logger.py:88-116 | success empties the buffer into the stream, missing values left out; failure keeps the first hundred |
| AuditLog.RedisLogBuffer.Publish | app/audit_logs/redis_logger.py:118-125 | stream plus buffer grow by exactly this entry, flushed or not, unless a flush fails with a hundred entries already buffered; then exactly the first hundred stay |
| AuditLog.AuditLogConsumer.ProcessBatch | app/audit_logs/consumer.py:94-141 | one record per message in order, all or none; nothing is stored or acknowledged when a number does not parse |
| AuditLog.ParsesIff | app/audit_logs/consumer.py:120-122 | a message can be stored iff every line, thread and process number it gives parses |
| AuditLog.LoggedIsStored | app/audit_logs/redis_logger.py:194-212 | what the logger builds, written to the stream and read back, is stored field by field as it was given |
| AuditLog.MissingFields | app/audit_logs/consumer.py:104-125 | missing fields, and those written as None, get their defaults |
| AuditLog.UnreadableFields | app/audit_logs/consumer.py:104-125 | an unreadable timestamp becomes the time of the batch; an extra "null" and an empty number count as missing |
| AuditLog.ReadTakesNext | app/audit_logs/consumer.py:143-158 | a free reader is handed the next unread entries still in the stream, as many as asked for, and nobody else gets them |
| AuditLog.InsertIsAllOrNothing | app/audit_logs/consumer.py:94-141 | a batch is stored whole, in order, when the database takes it and every number in it parses; otherwise none of it is |
| AuditLog.AckMarksBatch | app/audit_logs/consumer.py:130-141 | an acknowledgement marks exactly the positions of the stored batch, or none when it fails |
| AuditLog.NewestAreKept | app/audit_logs/redis_logger.py:103-108 | over every run trimming leaves at least the newest million entries and never gives any back |
| Settings.Merge | app/services/tenant_service.py:122-130 | the merge ends, and has exactly the keys of both |
| Settings.MergeAddsNothingIff | app/services/tenant_service.py:122-130 | defaults add nothing exactly when they are covered at every level |
| Settings.MergeChangesNothingIff | app/services/tenant_service.py:122-130 | overrides change nothing exactly when they are there already, at every level |
| Settings.MergeIdempotent | app/services/tenant_service.py:122-130 | merging the same overrides, or the same defaults, again changes nothing |
| Settings.MergeAssociative | app/services/tenant_service.py:122-130 | merging twice is merging the merged overrides, when dictionaries stay dictionaries |
| Settings.ReadMeans | app/services/tenant_service.py:87-130 | setting by setting: exactly six sections, in each the value the row gives or else the default, and a plain value stored for a section as it is |
| Settings.ReadAfterUpdateIff | app/services/tenant_service.py:98-156 | for any tenant, existing or not, and any connection: reading after an update gives the old settings merged with it iff the connection saw the row and no plain-valued section is replaced by a partial one, or it did not and the update asks for nothing new |
| Settings.ReadsAreMergedUpdates | app/services/tenant_service.py:98-156 | in every run of updates that keep sections as sections, reading gives the merge of the tenant's own updates whose connection saw the row |
| Settings.AllUpdatesReadIff | app/services/tenant_service.py:98-156 | in such a run each update of the tenant is read right after it iff none that asks for something new was on a foreign connection; then the run reads as the merge of all |
| Settings.DefaultSettingsAreValid | app/services/tenant_service.py:18-53 | the default settings have the six sections, each a dictionary of plain values |
| Settings.LostSectionRefills | app/services/tenant_service.py:98-156 | a plain-valued section replaced by a partial one reads back with defaults added |
| Settings.ForeignUpdateIsLost | app/services/tenant_service.py:142-164 | an update on a foreign connection is answered with the defaults merged with it and leaves the reading as it was |
| Settings.StepIsInvisibleIff | app/services/tenant_service.py:92-120 | a request keeps the settings cache coherent and is answered as without it iff it is a read on the tenant's connection or of defaults, or an update that is not stored, not cached or asks for nothing new |
| Settings.CachingIsInvisibleIff | app/services/tenant_service.py:92-120 | over every run the settings cache cannot be noticed iff each request is of that kind |
| Settings.HitsAreRecent | app/services/tenant_service.py:116-118 | in every run a cached answer is what its reader's connection read less than 60 s ago |
| Settings.UpdateReadsStale | app/services/tenant_service.py:133-164 | after an own update within the minute a cached read gives the old settings |
| Settings.GetTenantSettings | app/services/tenant_service.py:87-120 | a live entry, else what the connection sees: defaults for a missing or empty row, or the merge, cut to the six sections and cached for 60 s |
| Settings.UpdateTenantSettings | app/services/tenant_service.py:133-164 | returns the settings the connection sees merged with the update, and stores them if it sees the row |
| SettingsObjects.MergeSettings | app/services/tenant_service.py:122-130 | on shared mutable dictionaries the result is new, no existing dictionary is written, and it holds the merge |

## Left out

- JWKS publication, key encodings (`_int_to_bytes`, `_base64url_encode`), key generation and the HS256 path, which read the keyset or no state at all and change none.
- Signature, hash and password algorithms, and HTTP parsing of tokens and forms.
- KeyRotation.LockFileExcludes: a holder that crashes inside the critical section is no event of these runs. Its lock file stays, and after 30 s two waiters can enter together although every section is prompt; `CrashAdmitsTwoIff` says exactly when.
- SigningKeys.SigningKeyManager.EnsureStateLoaded: the waiting loop on a held lock is one failing attempt here; waiting, stale locks and interleavings are in `KeyRotation.dfy`.
- SigningKeys.SigningKeyManager.MaybeRotate: likewise, a held lock fails the one attempt; waiting and breaking a stale lock are `TryLock`, `Inspect` and `Break` in `KeyRotation.dfy`.
- SigningKeys.SigningKeyManager.SignToken: the HS256 path and the error for another algorithm are not modelled; both touch no keyset.
- SigningKeys.SigningKeyManager.DecodeToken: the HS256 path and the error for another algorithm are not modelled; both touch no keyset.
- RevocationRuns.Convergence: one direction only; the exact forms are `RejectsIff` and `DrainedAcceptsIff`.
- RevocationRuns.RejectsIff: is about ids with a bit of their own; other ids may be rejected by a false positive of the filter.
- RevocationRuns.RestartedWorkerRejects: appends that failed leave nothing to replay, so it speaks of appended revocations.
- NoStaleGrants.NoStaleGrant: covers login tokens; tokens issued by `refresh()` or by the OIDC endpoints have no session row and cannot be revoked by these routes.
- NoStaleGrants.WideningBulkKeeps: sufficient only, a guard on the request alone; the exact guard, which looks at other rows too, is `BulkKeepsIff`.
- NoStaleGrants.NoStaleGrant: worker restarts are not events of that run; they are in `RevocationProtocol.dfy`, and `EndToEnd.dfy` puts the two together.
- PolicyService.UpdatePolicy: conditions other than the validity time, and the order that converting actions to a set gives them, are not modelled; neither affects the masks.
- Oidc.CodeYieldsTokensOnce: takes requests as atomic; `Races.IssuesTwiceIff` says when overlapping ones still redeem a code once.
- Oidc.OneLiveTokenPerCode: likewise.
- Sessions.RevokeAllSessions: the fetch and the update of its rows are one step; so are those of the other session requests.
- Oidc.RotateSucceedsIff: the payloads of access and ID tokens are not modelled, nor a failure of the revoking statement itself, nor the client-credentials grant, which stores nothing.
- Validation of upstream tokens, discovery documents and their caches: `Federation.Resolve` starts from validated claims.
- Names, passwords and roles of users made by federation, and client secrets of providers.
- Caches.FetchRows: rows created in the same instant are taken in insertion order.
- Pagination, response formatting, role and condition checks, the admin portal, e-mail, seeding and migrations.
- AuditLog.RedisLogBuffer.Flush: publishes that arrive while the flush runs are not part of the method; they are events of the state machine, where `FailureKeepsOldest` covers them.
- AuditLog.RedisLogBuffer.Publish: the same holds of concurrent publishes.
- AuditLog.EveryEntryInOnePlace: assumes that a pipeline which reports failure has appended nothing.
- AuditLog.Timestamp: the clock read for a missing or unreadable timestamp is a parameter, the same for a whole batch.
- Settings.UpdateTenantSettings: is called without a cache connection, as all routes do; the cached read it can also make is not modelled.
- `update_token_settings`, which may write into the shared defaults.
- `cached_verify_token`: a cached answer is not checked against the expiry again, so it agrees with a fresh verification only before expiry.
- Letter case is folded for ASCII letters only.
