# Simply Sats: protocols, transactions and codecs

A Dafny model of the parts of the Simply Sats wallet that carry state or bytes: the unlock
rate limiter, the HTTP server's session and its SDK client, account switching and the cache
behind it, the transaction builders with their key store, the script, tag and amount codecs,
and account discovery. Code that changes fields is a class whose methods are proved against a
function of the old state; the theorems are about those functions, over every input or every
run.

- `RateLimiter` — failed unlocks, exponential backoff, the idle reset.
- `Session`, `RequestLimiter`, `TokenProtocol` — CSRF nonces, the rotating session token, the
  limit on requests, and the two parties that exchange the token. HMAC (section 2 of RFC 2104)
  is an uninterpreted function.
- `SnapshotCache`, `AccountSwitching`, `AccountKeys` — the least-recently-used snapshot cache,
  the step system of switches, fetches, snapshots and account refreshes, and the native keys
  during it. A displayed field is represented by the account it belongs to.
- `Fees`, `Serialization`, `Transactions`, `TransferJson`, `Builders` — fees and the bytes they
  pay for, the SDK transaction that builders fill in, the text of a token transfer, and the
  builders. The SDK's key, address, script and signing functions are uninterpreted and may
  fail.
- `KeyStore` — stored keys, account derivation, and the choice of a key for every input.
- `Scripts`, `OrdinalLock`, `Listings`, `TagString`, `Tokens` — printers of bytes and text,
  each with a parser written only to state that the printed form can be read back.
- `Discovery` — the gap-limit scan and the creation of the accounts it finds.
- `Decimal`, `Text`, `Wrappers` — numerals, searching, optional values.

Clocks, random strings, network and database answers, and the order in which suspended code
resumes are parameters. The shipped build of the native side has no overflow checks, so 64-bit
sums and products wrap, and the model keeps that.

## Where the code differs from what it promises

- The backoff is said to stay at its cap. The product wraps to zero from the 66th failure in a
  row on (`RateLimiter.LockoutIsBackoffExactlyUpTo65`); the bound of 15 guesses in 15 minutes
  holds from every counter up to 61 and fails from 62 on.
- The session alone accepts a used nonce again once a cleanup has evicted it for lack of room
  (`Session.SomeRunAcceptsANonceTwice`). Behind the server's request limiter at most 421 nonces
  are live of the 1000 there is room for, so a nonce authorizes one call at most. An account
  rotation, however, forgets nonces but keeps the secret.
- One request can rotate the token twice, if more than an hour passes inside its handler.
- "The UI never mixes accounts" during a switch only if all database reads of the preload come
  back, and if what a fetch has captured while the switch was running is the account that is
  active in the end (`AccountSwitching.CurrentFetchBelongsIff`).
- It mixes them after a switch if a callback made before it is called after it: account and
  version are read at the call, and the wallet is the callback's. `Header.tsx` waits for a sync,
  and sending, freezing and locking coins wait for their own work, before they fetch. The old
  account's ordinal balance, ordinals and UTXOs then show, and are cached, as the new one's, and
  its ordinals are merged into the new one's activity
  (`AccountSwitching.FetchThroughOldCallbackShowsOldAccount`); a fetch started with nothing
  running is harmless exactly if it asks the database alone or was given the active account's
  wallet (`AccountSwitching.StartKeepsConsistentIff`).
- A refresh of the account list that reads the database before a switch and ends after it makes
  the old account active again, over the new account's wallet and data
  (`AccountSwitching.StaleRefreshReactivatesOldAccount`).
- A switch whose database update is refused has already changed the native keys, and leaves them
  (`AccountKeys.RefusedUpdateStraysKeys`).
- A change output may be added that was not counted; the fee then falls short, by at most one
  output's worth, unless the larger transaction costs the same (`Fees.FeeCoversIff`,
  `Fees.FeeCanFallShort`).
- The size a fee is reckoned with leaves out the bytes that 253 or more inputs or outputs take for
  their count (`Serialization.P2pkhTransactionTakesItsSize`).
- The ticker of a token transfer is not escaped: with a quotation mark, a backslash or a control
  character in it the inscription does not say what was asked (`TransferJson.TransferReadsBackIff`).
- A reply over ten megabytes is lost to the client, with the new token it may carry
  (`TokenProtocol.OversizedAnswerIsLost`); a client that misses a new token stays out of step.
- A strict client takes over a badly signed reply when the browser's cryptography throws.
- A call whose result is null succeeds and rotates the token, and the client reports it as failed
  (`TokenProtocol.NullResultIsReportedAsFailure`).
- Inscriptions of more than 65535 bytes cannot be read back: the push length wraps.
- A negative token amount below one whole unit is not formatted as a signed number.
- Discovery is described as looking for transaction history; it looks at balances, and a gap of
  five confirmed-empty accounts after a hit hides the accounts behind it.

## Model

| member | source | states |
|---|---|---|
| `RateLimiter.RateLimitState.CheckLimit` | src-tauri/src/rate_limiter.rs:62-79 | limited exactly while a lock is live and the limiter not idle, with the time remaining; the idle reset is the only change of state |
| `RateLimiter.RateLimitState.RecordFailed` | src-tauri/src/rate_limiter.rs:82-101 | the whole new state after a failure, the lock it sets and the attempts left |
| `RateLimiter.RateLimitState.RemainingAttempts` | src-tauri/src/rate_limiter.rs:111-124 | failures from now on report a lock exactly from the one with the number returned on, idle reset included; 0 says that the last one did |
| `RateLimiter.LockoutIsBackoffExactlyUpTo65` | src-tauri/src/rate_limiter.rs:52-58 | the lockout is min(1000 * 2^(n-5), 300000) if and only if n is at most 65 |
| `RateLimiter.LockoutVanishes` | src-tauri/src/rate_limiter.rs:52-58 | from the 66th failure in a row the lockout is zero |
| `RateLimiter.EveryRunKeepsValid` | src-tauri/src/rate_limiter.rs:62-108 | in every run a lock is set exactly from the fifth failure on and ends one lockout after the last failure |
| `RateLimiter.NextFailureCounts` | src-tauri/src/rate_limiter.rs:62-93 | the counter and the lock are forgotten exactly after more than 15 minutes without a failure |
| `RateLimiter.IdleResetReleasesNoLock` | src-tauri/src/rate_limiter.rs:62-93 | whenever the idle reset applies, the lock is already over |
| `RateLimiter.StretchCost` | src-tauri/src/rate_limiter.rs:62-101 | over any guarded run without success, either every lockout was waited out or a reset took over 15 minutes |
| `RateLimiter.ConsecutiveFailuresWait` | src-tauri/src/rate_limiter.rs:52-101 | consecutive guarded failures are at least the sum of the lockouts between them apart |
| `RateLimiter.FailureAfterTheFifthWaits` | src-tauri/src/rate_limiter.rs:52-101 | counted from the fifth failure, that sum is the sum of the documented backoffs |
| `RateLimiter.FifteenLockoutsOutlastTheWindow` | src-tauri/src/rate_limiter.rs:52-58 | fifteen lockouts in a row exceed 15 minutes if and only if the first belongs to failure 62 or earlier |
| `RateLimiter.AtMost15FailuresPerWindow` | src-tauri/src/rate_limiter.rs:52-101 | 16 guarded failures without success, resets included, take more than 15 minutes from every counter up to 61 |
| `RateLimiter.EveryWindowHoldsAtMost15` | src-tauri/src/rate_limiter.rs:52-101 | in every guarded run from the start, any two failures at most 15 minutes apart, without a success between them and with a counter of at most 61 before them, span at most 15 failures |
| `RateLimiter.SixteenFailuresFitAfterWrap` | src-tauri/src/rate_limiter.rs:52-101 | from every counter of 62 or more, some guarded run fits 16 failures into 15 minutes |
| `RateLimiter.SomeRunTakesOnlyTheLockouts` | src-tauri/src/rate_limiter.rs:52-101 | every counter is reached from the start by a guarded run, and the failures after it take exactly the lockouts between them |
| `RateLimiter.SomeRunHasSixteenInOneWindow` | src-tauri/src/rate_limiter.rs:52-101 | a guarded run from the start with 16 failures within 15 minutes, after 62 others |
| `Session.SessionState.CleanupExpiredNonces` | src-tauri/src/lib.rs:198-221 | keeps the unexpired stamps, of these the newest 1000, and keeps the set equal to the names in the list |
| `Session.SessionState.ValidateNonce` | src-tauri/src/lib.rs:144-195 | accepts exactly the nonces that are not on record after the cleanup, were made with the session's secret, and are at most 300 seconds old and 60 ahead; records what it accepts |
| `Session.AcceptsIffAuthentic` | src-tauri/src/lib.rs:144-195 | so for every state and text: an accepted nonce is a time, a random part and the HMAC of both under the secret, and every such one that is timely and unused is accepted |
| `Session.SessionState.GenerateCsrfNonce` | src-tauri/src/lib.rs:663-688 | drops expired stamps and refuses exactly when 800 unexpired ones remain |
| `Session.SessionState.RotateForAccount` | src-tauri/src/lib.rs:647-658 | new token, no recorded nonce, the account set, the secret kept |
| `Session.LiveIsUnexpiredPart` | src-tauri/src/lib.rs:198-212 | the cleanup keeps exactly the unexpired stamps and introduces no duplicate |
| `Session.EveryRunKeepsInvariant` | src-tauri/src/lib.rs:144-221 | in every run no string is recorded twice, at most 1001 are recorded, and each with the time its own text claims |
| `Session.SpentNonceIsRejected` | src-tauri/src/lib.rs:144-221 | with at most 1000 live nonces and no account rotation, a recorded or expired nonce is never accepted again |
| `Session.AcceptedAtMostOnce` | src-tauri/src/lib.rs:144-221 | in every such run each string is accepted at most once |
| `Session.UsedNonceAcceptedAgainIffLost` | src-tauri/src/lib.rs:144-221 | after any run, an accepted nonce is accepted again if and only if it has not expired and, since its last acceptance, a cleanup evicted it, this one included, or an account rotation cleared the record |
| `Session.TrackedNonceAcceptedIffLost` | src-tauri/src/lib.rs:144-221 | the same for every nonce on record, or lost before |
| `Session.SomeRunAcceptsANonceTwice` | src-tauri/src/lib.rs:144-221 | a run of validations alone that accepts one nonce twice |
| `Session.UsedNonceAcceptedAfterAccountRotation` | src-tauri/src/lib.rs:647-658 | a nonce used before an account rotation is accepted once more if and only if it has not expired |
| `Session.FreshNonceSplits` | src-tauri/src/lib.rs:115-132 | the text of a nonce splits into its timestamp, random part and HMAC, and claims the time it was made |
| `Session.FreshNonceAccepted` | src-tauri/src/lib.rs:115-195 | after any validations of other nonces, cleanups and rotations, a fresh nonce is accepted if and only if at most 300 seconds have passed |
| `TokenProtocol.Server.Forward` | src-tauri/src/http_server.rs:846-947 | only a successful state-changing operation rotates the token, and its reply names the new one |
| `TokenProtocol.Server.Handle` | src-tauri/src/http_server.rs:384-826 | the handlers' order of checks, what each refusal answers, and what each leaves of the session |
| `RequestLimiter.Limiter.Check` | src-tauri/src/http_server.rs:184-200 | admits while the next cell is due at most a minute ahead, and moves it by one cell |
| `RequestLimiter.AdmittedInWindow` | src-tauri/src/http_server.rs:30-40 | in any stretch of time, at most one request a second and 61 more get through |
| `TokenProtocol.Server.Serve` | src-tauri/src/http_server.rs:159-225 | token check, request limiter, handler, rotation of an expired token, signing: reply, session and limiter for every request |
| `TokenProtocol.TokenIsNeeded` | src-tauri/src/http_server.rs:159-225 | without the right token three requests are answered, and every other one is refused with 401 and changes nothing |
| `TokenProtocol.PublicRequestIsAnswered` | src-tauri/src/http_server.rs:321-329 | these three are answered whatever token and limiter say |
| `TokenProtocol.LimiterIsAsked` | src-tauri/src/http_server.rs:184-200 | every other request with the token takes a cell of the limiter or is refused with 429; the queries of network and height are then answered |
| `TokenProtocol.UnfitCallIsRefused` | src-tauri/src/http_server.rs:635-735 | a call from a foreign origin, then one without an acceptable nonce, then one with a malformed body is refused with its own code, whatever the front end would say |
| `TokenProtocol.AnswerIsPassedOn` | src-tauri/src/http_server.rs:846-946 | the front end's answer becomes status and body of the reply; a success rotates the token for four operations, and nothing else does within the token's hour |
| `TokenProtocol.NonceIsHandedOut` | src-tauri/src/http_server.rs:384-393 | a nonce is handed out as time, random part and the HMAC of both |
| `TokenProtocol.SimplySats.Receive` | sdk/src/index.ts:229-275 | which token the client holds after a reply and what it reports, under every setting of its checks, swallowed exceptions of the browser's cryptography and a null result included |
| `TokenProtocol.BadReplyIsReported` | sdk/src/index.ts:229-268 | which code a client reports for an unreadable reply, a missing and a wrong signature |
| `TokenProtocol.LenientClientBelieves` | sdk/src/index.ts:237-275 | a lenient client, or one without a token, takes over every readable reply, signed or not: an error as an error, a result as a result |
| `TokenProtocol.StrictClientBelievesIff` | sdk/src/index.ts:241-268 | a strict client takes over a readable reply if and only if it is not null, signed and, where cryptography works, rightly |
| `TokenProtocol.ReplyCarriesTheLatestToken` | src-tauri/src/http_server.rs:203-222 | a reply names a token exactly when one was issued, and then the one the session holds |
| `TokenProtocol.InStepAfterReply` | sdk/src/index.ts:232-239 | after a reply client and server agree if and only if the reply was readable or the token unchanged |
| `TokenProtocol.ReadableReplyVerifies` | src-tauri/src/http_server.rs:288-317 | every readable reply verifies under the token the client then holds, so it never reports a bad signature |
| `TokenProtocol.AnswerReachesTheClient` | sdk/src/index.ts:229-275 | from the front end to a client in step, under every setting: a result is delivered and an error reported, as they are, and an error costs no token |
| `TokenProtocol.OversizedAnswerIsLost` | src-tauri/src/http_server.rs:288-317 | a body over ten megabytes arrives empty and unsigned: the call fails at the client, which learns of no new token |
| `TokenProtocol.NullResultIsReportedAsFailure` | sdk/src/index.ts:257-275 | a state-changing call with a null result succeeds, rotates the token, is taken in by the client and reported as failed |
| `TokenProtocol.RotatesTwiceExactlyWhenAnHourPasses` | src-tauri/src/http_server.rs:203-222 | at most two rotations a request, and two exactly when an expired token is rotated by the handler and expires again before the recheck |
| `TokenProtocol.ExpiredTokenIsReplaced` | src-tauri/src/http_server.rs:175-222 | a request let in with an expired token leaves a fresh one behind |
| `TokenProtocol.SequentialClientStaysInStep` | sdk/src/index.ts:201-275 | over every run of a sequential client, the tokens agree after every reply and every readable reply verifies |
| `TokenProtocol.OnlyValidationRecords` | src-tauri/src/http_server.rs:679-735 | only the nonce check changes the record of used nonces, and a protected call answered with 200 had the session's token and an accepted nonce, made with the session's secret and timely |
| `TokenProtocol.AtMost421Live` | src-tauri/src/lib.rs:42-43 | whenever the limiter lets a request in, at most 421 unexpired nonces are on record |
| `TokenProtocol.RunsAreRoomy` | src-tauri/src/http_server.rs:184-200 | in every run of requests, the record has room for every live nonce at every check |
| `TokenProtocol.EachNonceAuthorizesOneCall` | src-tauri/src/http_server.rs:679-735 | over every run of requests to a server from its start, from any clients, through all token rotations and without an account rotation, each nonce authorizes at most one successful call |
| `TokenProtocol.OutOfStepIsFinal` | src-tauri/src/http_server.rs:175-190 | once out of step, over every run, public requests included, each protected request is refused, session, limiter and token stay as they are, and the tokens stay apart |
| `TokenProtocol.NonceThenCallIsForwarded` | sdk/src/index.ts:193-196 | a nonce fetched and used within 300 seconds gets the call through, even if the token rotates in between |
| `SnapshotCache.CloneSnapshot` | src/services/accountSnapshotCache.ts:21-31 | a copy with the same content in new arrays |
| `SnapshotCache.AccountSnapshotCache.Get` | src/services/accountSnapshotCache.ts:41-49 | a hit moves the entry to the end and returns its content in new arrays; a miss changes nothing |
| `SnapshotCache.AccountSnapshotCache.Set` | src/services/accountSnapshotCache.ts:51-63 | the entry goes to the end with the content given, and the oldest entries beyond the limit go |
| `SnapshotCache.AccountSnapshotCache.Evict` | src/services/accountSnapshotCache.ts:58-62 | exactly the newest entries that fit are kept |
| `SnapshotCache.SetSurvivesOverwriting` | src/services/accountSnapshotCache.ts:51-63 | overwriting the arrays handed in leaves the cache with the content it was given |
| `SnapshotCache.GetSurvivesOverwriting` | src/services/accountSnapshotCache.ts:41-49 | overwriting the arrays handed out changes nothing in the cache |
| `SnapshotCache.EveryHistoryTracks` | src/services/accountSnapshotCache.ts:41-63 | after every history entries are in order of last touch, carry the last value set, and leave out only older ids |
| `SnapshotCache.CacheHoldsMostRecentlyTouched` | src/services/accountSnapshotCache.ts:33-64 | an id is cached if and only if it was touched and fewer than the limit were touched after it, and then with the value last set |
| `AccountSwitching.WalletUi.SwitchAccount` | src/hooks/useAccountSwitching.ts:166-196 | a request runs at once if the mutex is free and otherwise takes the one pending place |
| `AccountSwitching.WalletUi.EndSwitch` | src/hooks/useAccountSwitching.ts:301-316 | the mutex is freed, the pending place emptied, and the queued switch entered if it is for another account |
| `AccountSwitching.WalletUi.Activate` | src/hooks/useAccountSwitching.ts:280-292 | the account becomes active, a background refresh starts, and the switch ends |
| `AccountSwitching.WalletUi.Commit` | src/hooks/useAccountSwitching.ts:242-271 | a cached account is shown at once and refreshed in the background; a cold one is preloaded first |
| `AccountSwitching.WalletUi.ContinueDerivation` | src/hooks/useAccountSwitching.ts:197-227 | what follows the native derivation: database update, password fallback or failure |
| `AccountSwitching.WalletUi.ContinuePreload` | src/hooks/useAccountSwitching.ts:126-164 | each of the two attempts of a preload writes the target's data, is repeated after a pause, or clears the display |
| `AccountSwitching.WalletUi.ContinueSwitch` | src/hooks/useAccountSwitching.ts:197-300 | the state after each await of a switch, for success, failure and every await of the password fallback |
| `AccountSwitching.WalletUi.ContinueRefresh` | src/contexts/AccountsContext.tsx:82-95 | the row that was read becomes the active account, unguarded; a failure changes nothing |
| `AccountSwitching.WalletUi.StartFetch` | src/contexts/WalletContext.tsx:347-417 | a fetch runs for the account and the version of the moment it is started, with the wallet of the render that made its callback |
| `AccountSwitching.WalletUi.ContinueFetch` | src/hooks/useSyncData.ts:293-543 | a stage writes its fields only while its version is current, and otherwise the fetch ends; a history that the fetched ordinals add to shows the account of the rows and that of the ordinals |
| `AccountSwitching.WalletUi.RunSnapshotEffect` | src/contexts/WalletContext.tsx:136-148 | a snapshot is taken only of data that belong to the active account |
| `AccountSwitching.RefreshKeepsConsistentIff` | src/contexts/AccountsContext.tsx:82-95 | a refresh that ends keeps everything consistent if and only if a switch is running or the row it read is the active account's |
| `AccountSwitching.FailureKeepsConsistentIff` | src/hooks/useAccountSwitching.ts:205-240 | a failing switch keeps everything consistent if and only if the active account has stayed or another switch is queued |
| `AccountSwitching.StartKeepsConsistentIff` | src/contexts/WalletContext.tsx:347-417 | starting a fetch keeps everything consistent if and only if it asks the database alone or was given the wallet of the active account, and, while a switch is running, the data of its target are on display and it is the active account |
| `AccountSwitching.StaleRefreshReactivatesOldAccount` | src/hooks/useAccountSwitching.ts:286-288 | a run in which a refresh undoes the activation of a successful switch |
| `AccountSwitching.FetchThroughOldCallbackShowsOldAccount` | src/components/wallet/Header.tsx:30-38 | a run in which a callback made before a switch and called after it shows, and caches, the old account's ordinal balance as the new one's |
| `AccountSwitching.StepKeepsConsistent` | src/hooks/useAccountSwitching.ts:126-316 | every step whose fetches, refreshes and failures meet these conditions keeps display, wallet, database, fetches in flight and cache consistent |
| `AccountSwitching.RunKeepsConsistent` | src/hooks/useAccountSwitching.ts:126-316 | so does every run of such steps, in every order, fetches through callbacks made before a switch included where they ask the database alone |
| `AccountSwitching.DisplayBelongsToActiveAccount` | src/contexts/WalletContext.tsx:136-148 | in every such run whose preloads succeed, whenever no switch is running, all displayed fields belong to the active account, and every cached snapshot to its key |
| `AccountSwitching.PreloadShowsTargetIffAllReadsSucceed` | src/hooks/useSyncData.ts:106-237 | a cold switch shows the new account alone if and only if all three database reads came back |
| `AccountSwitching.CurrentFetchBelongsIff` | src/hooks/useSyncData.ts:293-543 | what a fetch writes, whenever it was started and whenever its callback was made, belongs to the active account if and only if the account it was started for, or the wallet its callback was made with, is the active one wherever its data are written |
| `AccountSwitching.FetchStartedDuringSwitchShowsOldAccount` | src/hooks/useAccountSwitching.ts:254-286 | a fetch started during a preload ends with the data of the account active then under the new account |
| `AccountSwitching.FetchShowsAll` | src/hooks/useSyncData.ts:293-543 | a whole fetch, from any state, leaves every field and the scope with the active account, and nothing else changed |
| `AccountSwitching.FailedRowsLeaveUtxos` | src/hooks/useSyncData.ts:375-543 | a failure before the database ordinals are shown still lets the UTXOs be written |
| `AccountSwitching.FailedContentLeavesUtxos` | src/hooks/useSyncData.ts:375-543 | so does one while the cached contents are read |
| `AccountSwitching.FailedApiLeavesUtxos` | src/hooks/useSyncData.ts:375-543 | and one while the network is asked for ordinals |
| `AccountSwitching.FailedFetchEnds` | src/hooks/useSyncData.ts:293-379 | a failed balance or history ends the fetch with the later fields as they were; a failed ordinal balance is passed over |
| `AccountSwitching.DatabaseFetchShowsAll` | src/hooks/useSyncData.ts:106-237 | a fetch from the database alone shows every field of the active account, at the first or the second attempt |
| `AccountSwitching.FailedDatabaseFetchShowsNothing` | src/hooks/useSyncData.ts:106-237 | one that fails leaves everything as it was |
| `AccountSwitching.SwitchArrives` | src/hooks/useAccountSwitching.ts:166-300 | from rest, a switch to a cold account ends with account, wallet, database, keys and display of the target |
| `AccountSwitching.PasswordSwitchArrives` | src/hooks/useAccountSwitching.ts:211-300 | so does one by way of the session password |
| `AccountSwitching.CachedSwitchArrives` | src/hooks/useAccountSwitching.ts:242-300 | a switch to a cached account shows its snapshot and fetches its data from the database |
| `AccountSwitching.PreloadRuns` | src/hooks/useAccountSwitching.ts:126-164 | a preload succeeds at the first or the second attempt or is cleared after both, and the account becomes active in each case |
| `AccountSwitching.QueuedSwitchBegins` | src/hooks/useAccountSwitching.ts:301-316 | a request that comes during a switch begins when that ends |
| `AccountSwitching.UnknownAccountIsRefused` | src/hooks/useAccountSwitching.ts:176-187 | a switch to an unknown account fails at once and changes nothing |
| `AccountSwitching.CacheStaysSmall` | src/contexts/WalletContext.tsx:61-66 | in every run at most three snapshots are cached |
| `AccountSwitching.ThreeAccountsFit` | src/contexts/WalletContext.tsx:61-66 | and a third snapshot displaces none of two others |
| `AccountSwitching.RefreshKeepsLastRequestIff` | src/contexts/AccountsContext.tsx:82-95 | with nothing running, a refresh keeps the last request in force if and only if it has read the active account's row |
| `AccountSwitching.LastRequestWins` | src/hooks/useAccountSwitching.ts:166-174 | at most one switch body at a time and no more bodies than requests; when all succeed and every refresh that ends at rest has read the active row, the active account is the one requested last |
| `AccountSwitching.UpdatesFitRefreshesFit` | src/contexts/AccountsContext.tsx:82-95 | in every run in which no other account is made the active one in the database between the read of a refresh and its end, every refresh that ends at rest has read the active row |
| `AccountSwitching.LastRequestWinsIfUpdatesFit` | src/hooks/useAccountSwitching.ts:166-174 | in every such run, whenever no switch is running and none has failed, the account requested last is the active one, and database and display state agree on it |
| `AccountKeys.StepKeepsKeysIff` | src/hooks/useAccountSwitching.ts:197-246 | a step leaves the native store with the keys of wallet or target if and only if it is not a failure after the store has switched, nor a fallback whose keys were not stored |
| `AccountKeys.RefusedUpdateStraysKeys` | src/hooks/useAccountSwitching.ts:203-210 | a refused database update leaves the target's keys under the old wallet |
| `AccountKeys.StoredKeysAreTheActiveAccounts` | src-tauri/src/key_store.rs:304-341 | in every run without such a step, whenever no switch is running the store holds the keys derived for the active account |
| `Fees.FeeIsCeiling` | src-tauri/src/transaction.rs:105-111 | the fee is one satoshi or the exact ceiling of rate times size, unless it saturates |
| `Fees.FeeIsBounded` | src-tauri/src/transaction.rs:105-111 | the fee is one satoshi at least, and saturates at 64 bits |
| `Serialization.OutputTakesItsSize` | src-tauri/src/transaction.rs:652-665 | the size an output is counted with is the length of its bytes |
| `Serialization.P2pkhTransactionTakesItsSize` | src-tauri/src/transaction.rs:101-108 | the size a fee is charged for is the length of the signed transaction if and only if it has fewer than 253 inputs and outputs, and never more |
| `Serialization.TransactionTakesItsSize` | src-tauri/src/transaction.rs:647-671 | so for outputs with any scripts |
| `Fees.CoversIff` | src-tauri/src/transaction.rs:105-111 | a fee charged for one size covers another if and only if that size's own fee is not higher |
| `Fees.FeeCoversIff` | src-tauri/src/transaction.rs:113-133 | the fee covers the rate on the real size if and only if more than 100 satoshis are left over, there is no change, or the uncounted change output costs nothing more |
| `Fees.FeeCoversBuiltTransaction` | src-tauri/src/transaction.rs:113-133 | where it does not, it falls short by at most one output's worth |
| `Fees.FeeCanFallShort` | src-tauri/src/transaction.rs:119-122 | an input for which the fee does fall short |
| `Fees.ScriptFeeCoversIff` | src-tauri/src/transaction.rs:647-671 | an unsaturated script-measured fee covers a transaction if and only if the fee for its real size is not higher, outputs worth nothing included |
| `Fees.ScriptFeeCovers` | src-tauri/src/transaction.rs:647-671 | and the bound on what it falls short by |
| `Fees.ScriptFeeCoversExactly` | src-tauri/src/transaction.rs:647-671 | with a change script no longer than counted, it covers the transaction if and only if more than 100 satoshis are left over, there is no change, or the fee with the change output counted is the same |
| `Transactions.TotalOf` | src-tauri/src/transaction.rs:284-284 | the total of inputs, modulo 2^64 |
| `Transactions.OutputsOfOne` | src-tauri/src/transaction.rs:140-157 | a payment becomes an output of its satoshis to its address or script, refused exactly if the address is paid nothing or cannot be paid |
| `Transactions.SdkTransaction.AddInputs` | src-tauri/src/transaction.rs:182-185 | inputs are appended in order, and it fails exactly if one is not accepted |
| `Transactions.SdkTransaction.AddP2pkhOutput` | src-tauri/src/transaction.rs:140-157 | appends exactly the payment; fails exactly on zero satoshis or an unusable address |
| `Transactions.SdkTransaction.SignEach` | src-tauri/src/transaction.rs:245-253 | input i is unlocked by a signature of key i over the finished transaction |
| `Transactions.Complete` | src-tauri/src/transaction.rs:228-269 | succeeds exactly if every SDK call does; spends exactly the coins, in order, makes exactly the payments and the change, and signs each input with its own key |
| `Transactions.SettledConserves` | src-tauri/src/transaction.rs:113-133 | inputs equal outputs plus reported fee if and only if the reckoned total and payments differ by what the real ones do |
| `Builders.BuildP2pkhTx` | src-tauri/src/transaction.rs:165-215 | one key signs all and takes the change; succeeds exactly when funds and SDK calls suffice; conserves satoshis if and only if the caller's total is the sum of the inputs |
| `Builders.BuildMultiKeyP2pkhTx` | src-tauri/src/transaction.rs:219-269 | the same with each input signed by its own key |
| `Builders.BuildMultiOutputP2pkhTx` | src-tauri/src/transaction.rs:978-1051 | the same for several payments, whose sum must fit 64 bits |
| `Builders.BuildMultiKeyOutputP2pkhTx` | src-tauri/src/transaction.rs:1058-1123 | the same for several payments and keys |
| `Builders.BuildCustomOutputTx` | src-tauri/src/transaction.rs:1139-1231 | the same for outputs with scripts in hexadecimal; refused exactly if one does not decode |
| `Builders.DecodedOutputs` | src-tauri/src/transaction.rs:1157-1163 | output i of a custom build has the satoshis and the decoded script of descriptor i, and is counted with that script's length |
| `Builders.DecodesIffAllHex` | src-tauri/src/transaction.rs:1157-1163 | the outputs of a custom build decode if and only if each script is an even number of hexadecimal digits |
| `OrdinalLock.HexLength` | src-tauri/src/transaction.rs:1160-1161 | the script length the fee is reckoned with is the length of the decoded script |
| `Builders.BuildInscriptionTx` | src-tauri/src/transaction.rs:683-773 | one satoshi on the inscription script, change to the key; conserves if and only if the inputs' sum fits 64 bits, and output 0 reads back as the inscription if and only if type and content fit 65535 bytes |
| `Builders.BuildTokenTransferTx` | src-tauri/src/transaction.rs:786-950 | token inputs first, each kind signed by its own key; refused exactly on missing coins, a bad amount or a bad address; output 0 is one satoshi on an inscription to the recipient that reads back as the requested transfer; conserves if and only if the sum fits 64 bits |
| `Builders.ValidAmountIsNumeral` | src-tauri/src/transaction.rs:805-811 | the amounts let through are the numerals of positive numbers below 2^128 |
| `TransferJson.TransferReadsBackIff` | src-tauri/src/transaction.rs:813-831 | the transfer text is a JSON object that names protocol, operation, token and amount if and only if the ticker needs no escaping |
| `Builders.BuildOrdinalTransferTx` | src-tauri/src/transaction.rs:477-563 | the ordinal is input 0 under its own key and output 0 at one satoshi; conserves if and only if the sum fits 64 bits |
| `Builders.BuildConsolidationTx` | src-tauri/src/transaction.rs:273-329 | at least two inputs become one output of everything but the fee; conserves if and only if the sum fits 64 bits |
| `Builders.FeeCoversBuilt` | src-tauri/src/transaction.rs:113-133 | the exact condition and the bound for the inputs and outputs the transaction really has |
| `Builders.ScriptFeeCoversBuilt` | src-tauri/src/transaction.rs:647-671 | the same for the bytes of the scripts the transaction really has, if the change script is no longer than counted |
| `Builders.ScriptFeeCoversBuiltExactly` | src-tauri/src/transaction.rs:647-671 | the same condition for the transaction as built |
| `Builders.OrdinalTransferFeeCovers` | src-tauri/src/transaction.rs:509-530 | the fee of an ordinal transfer covers the built transaction always, and is exactly its fee if there is change |
| `Builders.ConsolidationFeeCovers` | src-tauri/src/transaction.rs:284-286 | the fee of a consolidation is exactly that of the built transaction, and covers it |
| `KeyStore.KeyStoreInner.StoreKeys` | src-tauri/src/key_store.rs:119-157 | replaces everything by the derived account; a failed derivation changes nothing |
| `KeyStore.KeyStoreInner.StoreKeysDirect` | src-tauri/src/key_store.rs:166-207 | stores exactly the given keys if all three are valid, and otherwise changes nothing |
| `KeyStore.KeyStoreInner.SwitchAccount` | src-tauri/src/key_store.rs:304-341 | overwrites the keys with those of the account derived from the stored mnemonic; a failure changes nothing |
| `KeyStore.KeysGoToTheirPlaces` | src-tauri/src/key_store.rs:119-157 | wallet, ordinal and identity key each go to their place, in all three ways of storing |
| `KeyStore.KeyStoreInner.GetWif` | src-tauri/src/key_store.rs:80-96 | in every reachable state a store with keys has one of each type, and the error names what is wrong |
| `KeyStore.EveryRunKeepsWhole` | src-tauri/src/key_store.rs:46-66 | in every run the keys are all present or all absent, and a mnemonic is kept only with keys |
| `KeyStore.SwitchesFollowTheSeed` | src-tauri/src/key_store.rs:304-341 | after any switches the three keys are those of the last derivable account of the mnemonic first stored, which stays but for spaces around it |
| `KeyStore.TrimTakesSpaces` | src-tauri/src/key_store.rs:304-341 | trimming a mnemonic takes spaces off both ends and nothing else |
| `KeyStore.KeyStoreInner.ResolveExtendedUtxos` | src-tauri/src/key_store.rs:443-502 | succeeds exactly if every signer's key is given or derivable and every input has a signer; keeps order and outpoints; the error names the first input without one; if the signers are listed under their own addresses, every input gets a key of its address |
| `KeyStore.SignsForOwnAddress` | src-tauri/src/key_store.rs:454-483 | the key that signs for an address is a key of that address, whether given or derived from sender and invoice number |
| `KeyStore.CollectKeys` | src-tauri/src/key_store.rs:454-483 | an address maps to the key of the last signer listed for it, or else to the wallet key |
| `KeyStore.SignsForOneKey` | src-tauri/src/key_store.rs:454-483 | the key that signs for an address is unique |
| `KeyStore.BuildResolvedMultiKeyP2pkhTx` | src-tauri/src/key_store.rs:554-576 | succeeds if and only if the store is ready, every input's address has a key, and the build with these keys works out; every input is the selected coin, unlocked by a key of its own address, and change goes to the wallet |
| `KeyStore.BuildResolvedMultiOutputP2pkhTx` | src-tauri/src/key_store.rs:670-692 | the same for several payments |
| `Scripts.PushDataBytes` | src-tauri/src/transaction.rs:589-606 | opcode, length and data, the length cast to 16 bits beyond 255 |
| `Scripts.PrefixIsShortest` | src-tauri/src/transaction.rs:589-606 | opcode and length take one byte up to 75, two up to 255, three beyond |
| `Scripts.ParseOfPush` | src-tauri/src/transaction.rs:589-606 | a push reads back exactly up to 65535 bytes, and beyond that as many bytes as the wrapped length says |
| `Scripts.HashFollowsVersion` | src-tauri/src/transaction.rs:569-580 | the hash of an address is the 20 bytes after its version; shorter addresses are refused |
| `Scripts.BuildInscriptionScript` | src-tauri/src/transaction.rs:619-641 | the bytes of the envelope and the payment script, in order |
| `Scripts.InscriptionRoundTrip` | src-tauri/src/transaction.rs:589-641 | a parser recovers type, content and key hash and leaves nothing over if and only if both fit 65535 bytes |
| `Listings.EncodePayout` | src-tauri/src/ordinals.rs:48-74 | price, length and payment script to the seller; fails exactly on a bad address |
| `OrdinalLock.DecodesIffHex` | src-tauri/src/ordinals.rs:118-119 | a text decodes if and only if it is an even number of hexadecimal digits |
| `OrdinalLock.HexRoundTrip` | src-tauri/src/ordinals.rs:118-119 | bytes are read back from their hexadecimal text, in small letters or capitals |
| `OrdinalLock.TextOfNumber` | src-tauri/src/ordinals.rs:29-32 | the text made of a number is that of its bytes, the highest first |
| `Listings.ContractDecodes` | src-tauri/src/ordinals.rs:29-32 | the fixed contract text decodes, to 102 bytes before the terms and 702 after them, and every listing script is 859 bytes long |
| `Listings.BuildListingScript` | src-tauri/src/ordinals.rs:115-127 | fails exactly on a bad address; the script has its fixed length and reads back as owner, seller and price |
| `Listings.PayoutRoundTrip` | src-tauri/src/ordinals.rs:48-74 | a payout reads back as price and seller for every 64-bit price |
| `Listings.ListingRoundTrip` | src-tauri/src/ordinals.rs:115-127 | a listing script reads back as owner, seller and exact price |
| `Listings.EqualListingsHaveEqualTerms` | src-tauri/src/ordinals.rs:115-127 | two listings have the same script if and only if they have the same terms |
| `TagString.TagRoundTrip` | src-tauri/src/brc42_derivation.rs:184-194 | a parser recovers label, id and domain whatever the fields contain |
| `TagString.TagStringInjective` | src-tauri/src/brc42_derivation.rs:184-194 | equal tag strings come from equal fields only |
| `Tokens.FormatRoundTrip` | src/domain/tokens.ts:22-33 | reading the formatted amount gives the amount back, for every amount and precision |
| `Tokens.FormatIsCanonical` | src/domain/tokens.ts:22-33 | no leading zero beyond a single one, no trailing fractional zero, no bare point |
| `Tokens.FormatIsTheCanonicalText` | src/domain/tokens.ts:22-33 | a text is the formatted amount if and only if it is canonical and reads as the amount |
| `Tokens.NegativeAmountFormats` | src/domain/tokens.ts:22-33 | a negative amount is formatted as a signed number if and only if it has no fraction digits or a whole unit |
| `Discovery.CheckActivity` | src/services/accountDiscovery.ts:121-155 | active if some balance read is positive; empty if all addresses answered with none that is, negative answers counting as none on the native side only; unknown otherwise |
| `Discovery.CheckWithRetries` | src/services/accountDiscovery.ts:158-168 | the first conclusive of four attempts |
| `Discovery.FirstConclusiveOfFour` | src/services/accountDiscovery.ts:158-168 | the verdict is the first conclusive one of four attempts |
| `Discovery.UnknownIffEveryAttemptFails` | src/services/accountDiscovery.ts:158-168 | a check stays open if and only if all attempts are inconclusive |
| `Discovery.Scan` | src/services/accountDiscovery.ts:92-200 | returns exactly the active indices examined, increasing, and how many were examined; stops at the fifth confirmed-empty index since the last hit or at 200 and nowhere earlier |
| `Discovery.ScanFindsAllIffNoWideGap` | src/services/accountDiscovery.ts:92-200 | every active index in 1..200 is found if and only if fewer than five confirmed-empty ones lie in each gap |
| `Discovery.FundedAccountsFoundIff` | src/services/accountDiscovery.ts:92-200 | every funded account is found if and only if, besides, no funded account's checks all fail |
| `Discovery.Accounts.CreateAccount` | src/services/accounts.ts:127-148 | one insertion: the account becomes active, or the table is unchanged |
| `Discovery.AttemptComesTo` | src/services/accountDiscovery.ts:223-260 | what each fault and each existing account comes to |
| `Discovery.Accounts.CreateWithRetries` | src/services/accountDiscovery.ts:223-260 | up to three attempts while the database is locked; an existing account counts |
| `Discovery.ThreeAttempts` | src/services/accountDiscovery.ts:223-260 | there are three attempts, each made only if all before it found the database locked |
| `Discovery.Accounts.CreateDiscovered` | src/services/accountDiscovery.ts:219-283 | accounts are created in order up to the first failure, then the given account is made active |
| `Discovery.CreatesAPrefix` | src/services/accountDiscovery.ts:219-277 | exactly a prefix of the discovered accounts is added, nothing stored is lost or renumbered, and the next account could not be stored |
| `Discovery.CreatingKeepsIdsFresh` | src/services/accounts.ts:127-148 | no two accounts ever share an id |
| `Discovery.ActiveAccountIsRestoredIff` | src/services/accountDiscovery.ts:279-283 | an account active before discovery is active after it if and only if the final switch works or no account was added, whatever else failed |
| `Discovery.FinalSwitch` | src/services/accountDiscovery.ts:279-283 | the final switch is made exactly if an account was created or found and one is given, and makes none active if that one is unknown |
| `Discovery.DiscoveryIsRepeatable` | src/services/accountDiscovery.ts:239-245 | a second discovery counts the same accounts and stores none |

## Left out

- Cryptography (ECDSA, ECDH, AES-GCM, SHA-256, base58) and the inside of the BSV SDK: uninterpreted functions.
- Network, database, Tauri calls, files and logs: oracle inputs or success and failure choices; the limiter's HMAC-protected file is not modelled.
- `performSync`, the lock-reconciliation callbacks, `syncError`, locks and basket balances on display, and the content previews of ordinals.
- The values of displayed data, such as merged and sorted histories: a field stands for the account it belongs to.
- What fetches write to the database, such as the ordinals they cache there for the account they run for.
- Locking the wallet and unlocking it, whose preload writes without a guard.
- Creating, importing and deleting accounts, which share the switch's mutex only in part.
- A native command that completes after its caller has given up waiting and another switch has begun.
- Accounts imported from other mnemonics: the stored keys are tied to accounts of one mnemonic.
- The public handshake `/.well-known/auth`, which keeps sessions of its own and rotates no token.
- Requests whose body an extractor refuses before the handler runs, and host and CORS checks: the SDK's requests pass both.
- Exceptions in the middle of a stretch of setters.
- The moment between a state setter and the React effect that copies the value into a ref: the active account is one value.
- Several requests at once: requests are served one after another; the token protocol is that of a sequential client, as the SDK's own nonce-then-call pattern is.
- RequestLimiter.Limiter.Check: an upper bound; the limiter crate is not part of this model, and its documented rate and burst are read in the way that admits most.
- Commands of the wallet's own window between HTTP requests; an account rotation there lets a live nonce be used once more.
- Floating-point rounding of fee rates: rates are exact reals, and the conversion to 64 bits saturates.
- `build_lock_tx` and `build_unlock_tx`, whose amounts the caller supplies, and the saturating change of the marketplace transactions.
- Raw transaction bytes but for their length, transaction ids, and the outpoints listed beside them, which repeat the inputs.
- White space around a mnemonic other than blanks, tabs and line ends.
- Execution of the OrdinalLock bytecode; only its place in the script is modelled.
- The wrap of the 32-bit failure counter, and clocks so late that adding a deadline wraps.
- Derived address search in `brc42_derivation.rs`, which only calls the derivation in nested loops.
