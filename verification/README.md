# Truster: protocol state, caches and parsers, verified

Truster is an OpenID Connect broker. It keeps its protocol state in one database, shared by any
number of workers that may interleave, crash between transactions and talk to upstream providers
that misbehave. This project models that state and the code around it in Dafny and proves what the
design promises of it. `dafny verify dfyconfig.toml` checks all of it.

The project has three parts.

**Protocol state.** `RefreshFamilies`, `FlowTables` and `OtpTables` say what each transaction does to
the tables of `internal/statedb`, `Database` adds the transactions that span them, and `Store` is the
store itself: a class whose methods read rows, stop early or commit, each proved equal to its table
function. On top of that:

- `RefreshTheorems`, `RefreshReplay`: any run of any workers' transactions on refresh families. The
  token chain of a family, the fence around an upstream rotation, replay, revocation, lifetimes.
- `RefreshRules`, `FlowRules`: the rules as a reader of the tables would put them, whatever transaction
  follows them: who gets a token or a code and for how long, when claims run, who revokes a family.
- `Interference`, `RefreshService`: one refresh request of `internal/refresh`, call by call, with the
  other workers' transactions, passing time, failing storage and an arbitrary upstream in between.
- `CodeExchange`: the exchange of an authorization code, while the rest of the database changes at will
  between its calls. `TokenLifetimes`: no token of a family, from a code or a rotation, outlives it.
- `AuthorizationFlow`, `FlowTheorems`, `FlowHandlers`: the authorization flow as a machine in which a
  request passes from row to handler to row until it ends in a code; what every run keeps; and the
  handlers of `internal/oidc` proved to be parts of such runs.
- `OtpTheorems`: guesses, sends, quota and retry times of one-time codes.
- `GrantTheorems`: what revocation and self-service grant management promise.
- `CleanupInvisible`: deleting expired rows, at any time and in any selection, changes no answer.

**Data structures.** `ReplayCache` is the DPoP replay cache, a binary heap beside a map. `LruCache`
is the map-and-list structure of the policy resolver, `PolicyCaches` its client lookups and
`SchemaFlights` its compiled schemas, filled by one worker per key at a time.

**Parsers and encodings.** `TextArray` is the hand-written check of PostgreSQL `text[]` values,
`RowBudget` the byte budgets around it, `TokenFormat` the `ert1` refresh token over base64url and the
length-delimited encodings, `TrustSchema` the schema safety check against the JSON Schema generated to
describe it, `ClaimPolicy` claim names and effective schemas.

Conventions: times are integer nanoseconds; SHA-256 and HMAC are injective constructors, and an
encrypted box opens only under the secret and context it was sealed with; a random token is one never
handed out before; every transaction is one step, and a failed one has no effect. A request is left
alone when no other worker acts meanwhile, no time passes and storage works.

## Where the code does less than it says

- A resend makes a challenge usable again after its five attempts are spent, although the comment on
  it promises not to revive dead challenges (`internal/statedb/otp.go:97`). `ResendRevivesExhausted`
  says exactly when; an expired or consumed challenge does stay dead (`DeadStaysDead`).
- A DPoP proof is accepted twice if it is presented at both ends of its window, exactly fifteen
  seconds apart, since both ends are included and the entry expires on the instant. `AcceptedAgain`
  shows that this is the only case, `AcceptedTwice` that it happens. With a second clock reading for the
  reservation, as at the token endpoint, a proof that was checked in time is accepted again if its
  reservation comes a full retention after the last (`SeparateReadings`, `SeparatelyAcceptedTwice`).
- Marking and aborting an upstream refresh do not look at the family's absolute expiry, and storing
  actions only asks whether the family is there, so these can tell whether cleanup has run:
  `CleanupVisibleToMark`, `CleanupVisibleToAbort` and `CleanupVisibleToActions` say exactly when, and
  `ClaimOutlivesFamily` reaches the first two and `ExpiredFamilyLingers` the last.
- The safety check counts bytes where the generated schema counts characters, so they agree on ASCII
  strings and differ beyond them (`CheckMatchesSchema`, `BytesAreNotCharacters`).
- The strict base64url decoder skips line ends; only encoding again and comparing keeps a token from
  having several spellings (`StrictDecoding`, `LineEndDecodes`).

## Model

| member | source | states |
|---|---|---|
| RefreshTheorems.FamilyChain | internal/statedb/refresh.go:234-256 | In every reachable state the tokens of a family form one chain without repetition, each linked to the next by its replacement hash, that ends in the only unconsumed token and is one longer than the number of successful rotations. |
| RefreshTheorems.InvStep | internal/statedb/refresh.go:544-628 | Every transaction keeps: each token belongs to a family, each family has one unconsumed token, that token expires with the family's idle expiry and not after its absolute expiry, a started upstream refresh has a claim or the family is revoked. |
| RefreshTheorems.MarksShareClaim | internal/statedb/refresh.go:137-181 | Over every interleaving, two successful marks of one family with no completion or abort between them carry the same claim. |
| RefreshTheorems.CredentialSentOnce | internal/refresh/service.go:219-248 | Over every interleaving of exchanges, a stored upstream credential is sent for rotation at most once, unless it was replaced, the family began anew, or an exchange whose provider answered with a configuration error aborted. |
| RefreshTheorems.ExchangeVisits | internal/refresh/service.go:176-388 | What an exchange promises of the marks and aborts on record is what that theorem asks of every exchange in a run. |
| RefreshTheorems.CrashVisits | internal/refresh/service.go:176-388 | An exchange that stops anywhere, its part of the record a prefix of one, is also what that theorem asks of every exchange. |
| RefreshTheorems.FencedRun | internal/statedb/refresh.go:137-157 | Once marked, a family stays fenced by that claim or is revoked, through any steps that neither complete nor abort the refresh. |
| RefreshReplay.RotatedAtMostOnce | internal/statedb/refresh.go:567-601 | Each token is rotated at most once in any run. |
| RefreshReplay.ConsumedForever | internal/statedb/refresh.go:586-601 | A consumed token's row never changes again. |
| RefreshReplay.DeadForever | internal/statedb/refresh.go:631-646 | A revoked family stays revoked with the first time and reason and never gains a token. |
| RefreshReplay.ReplayKillsFamily | internal/statedb/refresh.go:125-136 | Presenting a rotated token again, to rotate or to claim, revokes its family for good. |
| RefreshReplay.EmptyRotationInert | internal/refresh/service.go:80-93 | After a replay was seen, rotating to the empty material installs no token, whatever happened in between. |
| RefreshReplay.FamilyLifetime | internal/statedb/refresh.go:227-242 | The absolute expiry of a family never grows, its profile never changes, and its current token expires with the idle expiry and never after the family's first absolute expiry. |
| RefreshRules.TokensAreEarned | internal/statedb/refresh.go:206-257 | A token is added to an existing family exactly by a rotation or completion that presents its good token, for the right client or under a running claim; the new token lives for the idle time from then, as long as the family does; a rotation leaves credential, upstream login and absolute expiry alone, a completion sets them, and nothing else changes. |
| RefreshRules.PreparedForRotation | internal/statedb/refresh.go:312-340 | Looking a token up finds it good exactly if it could be rotated then, with the expiry the rotation would give, and tells a spent one of an active family. |
| RefreshRules.FirstToken | internal/statedb/refresh.go:517-541 | A new family holds what it was created with and one token for the idle time, within its absolute expiry. |
| RefreshRules.UnusedTokensExpire | internal/statedb/refresh.go:582-585 | Over every run whose completions pass the family's own idle time, an unused token expires that long after it was issued, or with its family, and can not be rotated from then on. |
| RefreshRules.ClaimsAreTaken | internal/statedb/refresh.go:137-168 | A claim is taken exactly for a good token of the client in a family without a running claim or an unfinished upstream refresh, and can be marked exactly until its time is over. |
| RefreshRules.ClaimsDoNotOverlap | internal/statedb/refresh.go:137-168 | Over every interleaving, no second claim of a family is taken before the first one's time is over, unless it was completed, aborted or released. |
| RefreshRules.RevocationsAreEarned | internal/statedb/refresh.go:631-646 | An active family is revoked exactly by a replay of one of its tokens, a claim after an unfinished upstream refresh, or an order by its client or user, each with its own time and reason. |
| StateStore.Store.ClaimRefresh | internal/statedb/refresh.go:99-168 | The claim transaction: replay and indeterminate families are revoked, a running claim is respected, a new claim resets the mark. |
| StateStore.Store.MarkUpstreamRefreshStarted | internal/statedb/refresh.go:171-181 | Marks only under the current unexpired claim of a family that is not revoked. |
| StateStore.Store.ReleaseRefreshClaim | internal/statedb/refresh.go:184-190 | Drops the worker's own claim, if the upstream refresh has not started. |
| StateStore.Store.AbortUpstreamRefresh | internal/statedb/refresh.go:193-203 | Clears claim and mark under the current claim, and reports when there was nothing to clear. |
| StateStore.Store.CompleteClaimedRefresh | internal/statedb/refresh.go:206-257 | Consumes the token, lowers the expiries, replaces the credential and installs the new token, or changes nothing. |
| StateStore.Store.RotateRefreshToken | internal/statedb/refresh.go:544-612 | Rotates an authentic unexpired token, revokes on replay, and leaves everything alone on a handle collision. |
| StateStore.Store.CreateRefreshGrant | internal/statedb/refresh.go:517-541 | Creates a family and its first token together or not at all. |
| StateStore.Store.ConsumeAuthCode | internal/statedb/refresh.go:260-309 | Spends an unchanged, unexpired code and starts its family in the same transaction, or changes nothing. |
| StateStore.Store.PrepareRefresh | internal/statedb/refresh.go:312-340 | Tells authentic, replayed and expired tokens apart without changing anything. |
| StateStore.Store.SaveFlowCredential | internal/statedb/refresh.go:428-450 | Stores a temporary credential and removes the one it replaces. |
| StateStore.Store.LoadFlowCredential | internal/statedb/refresh.go:453-463 | Finds an unexpired temporary credential of this client and connector. |
| StateStore.Store.RevokeGrant | internal/statedb/refresh.go:631-637 | Revokes a client's own family, once. |
| StateStore.Store.RevokeRefreshToken | internal/statedb/refresh.go:640-646 | Revokes the family of a token whose hash matches. |
| StateStore.Store.RevokeCredential | internal/statedb/revocation.go:22-60 | Revokes the family of a usable credential whose proof binding matches, and nothing else. |
| StateStore.Store.CreateGrantActions | internal/statedb/grants.go:61-79 | Inserts actions batch by batch and stops at the first batch that fails. |
| StateStore.Store.ConsumeGrantActionAndRevoke | internal/statedb/grants.go:82-111 | Spends a matching action and revokes its active family together, or changes nothing. |
| StateStore.Store.CreateIdentitySelection | internal/statedb/grants.go:114-156 | Moves the expiry of a live state and stores the choices for it. |
| StateStore.Store.ConsumeIdentitySelection | internal/statedb/grants.go:159-175 | Deletes and returns an unexpired selection. |
| StateStore.Store.SaveState | internal/statedb/statedb.go:119-140 | Inserts a state under a new token. |
| StateStore.Store.GetAndDeleteState | internal/statedb/statedb.go:143-172 | Deletes and returns an unexpired state; the row is gone even if it expires before the second look at the clock. |
| StateStore.Store.PeekState | internal/statedb/statedb.go:175-189 | Reads an unexpired state. |
| StateStore.Store.SaveCredential | internal/statedb/statedb.go:192-204 | Records an accepted identity, whose local flag only ever turns on. |
| StateStore.Store.CredentialVerified | internal/statedb/statedb.go:207-214 | Whether an identity was accepted before, and locally. |
| StateStore.Store.SaveAuthCode | internal/statedb/statedb.go:217-238 | Inserts a code that does not exist yet. |
| StateStore.Store.PeekAuthCode | internal/statedb/statedb.go:241-252 | Reads an unexpired code. |
| StateStore.Store.SavePushedRequest | internal/statedb/par.go:15-21 | Inserts a pushed request under a new URI. |
| StateStore.Store.ConsumePushedRequest | internal/statedb/par.go:24-35 | Deletes and returns the client's own unexpired pushed request. |
| StateStore.Store.CleanUp | internal/statedb/statedb.go:328-380 | Deletes any selection of rows that their own table's expiry test admits, and what hangs on deleted grants. |
| StateStore.Store.CreateOTP | internal/statedb/otp.go:63-95 | Creates a challenge and records its send while the address has quota. |
| StateStore.Store.ResendOTP | internal/statedb/otp.go:98-158 | Refuses with the wait that remains, or replaces the code, resets the attempts and records the send. |
| StateStore.Store.OTPFlow | internal/statedb/otp.go:161-175 | Reads the flow of a challenge that can still be answered. |
| StateStore.Store.ConsumeOTP | internal/statedb/otp.go:178-228 | Counts a wrong guess or spends the challenge. |
| GrantTheorems.RevocationExact | internal/statedb/revocation.go:22-60 | A credential revokes its own family and no other, exactly if it is still good, the client is the family's and the proof is for the family's key; everything else stays. |
| GrantTheorems.RevocationIdempotent | internal/statedb/revocation.go:39-55 | Presenting the credential again changes nothing, so time and reason are those of the first revocation. |
| GrantTheorems.ActionOnce | internal/statedb/grants.go:82-111 | A self-service action works once: it is spent with the revocation, and whatever is done to families from then on, no action revokes that family again and the revocation stands. |
| GrantTheorems.ActionUsable | internal/statedb/grants.go:61-111 | From creation to use: an action that was created, in whichever batch, can be used exactly by its address, for its own family and kind, before it expires and while that family is active. |
| GrantTheorems.BatchesInserted | internal/statedb/grants.go:61-79 | What a call leaves behind is a prefix of its actions: all of them if it succeeds, whole batches if it fails. |
| GrantTheorems.StoredExactly | internal/statedb/grants.go:61-79 | A call stores all its actions exactly if each is for a family that is there, under a hash that is new, however many batches that takes. |
| OtpTheorems.GuessesBounded | internal/statedb/otp.go:188-227 | Attempts never exceed five, wrong guesses never exceed five for each send, and a challenge succeeds at most once. |
| OtpTheorems.QuotaHolds | internal/statedb/otp.go:80-156 | Under a nondecreasing clock, any window of one hour holds at most five sends to an address, deleted rows included. |
| OtpTheorems.ChallengesAnswer | internal/statedb/otp.go:161-228 | Over every run with cleanup, a code is accepted exactly if it is the last one sent for its challenge, less than five guesses have missed it and its time is not over, and then its flow resumes; the flow is shown exactly as long as a code may be accepted. |
| OtpTheorems.SendsExactly | internal/statedb/otp.go:63-158 | A code is sent for a new challenge exactly while fewer than five went to the address in the last hour, deleted rows included, and again exactly for an unexpired challenge, a minute after the last, under the same quota. |
| OtpTheorems.QuotaRetryExact | internal/statedb/otp.go:129-139 | A quota refusal reports a positive wait; the quota check passes after a wait exactly if it is at least that long. |
| OtpTheorems.CooldownRetryExact | internal/statedb/otp.go:121-123 | The cooldown refusal reports exactly the wait that remains. |
| OtpTheorems.DeadStaysDead | internal/statedb/otp.go:161-228 | An expired or consumed challenge is never usable, resent or guessed at again. |
| OtpTheorems.ResendRevivesExhausted | internal/statedb/otp.go:97-158 | A challenge out of attempts is usable after a resend exactly if it has not expired, its cooldown is over and the address has quota. |
| OtpTheorems.ExhaustedRevived | internal/statedb/otp.go:97-158 | A run that reaches such a challenge and brings it back. |
| CleanupInvisible.CleanupIsInvisible | internal/statedb/statedb.go:328-380 | In any run under a nondecreasing clock, with cleanup of any eligible rows at any points, every operation that hands out a state, code, flow, selection, pushed request, grant or token answers as if nothing were ever deleted. |
| CleanupInvisible.SimStep | internal/statedb/statedb.go:328-347 | The step of that simulation: related databases give the same answer and stay related. |
| CleanupInvisible.SimClean | internal/statedb/par.go:38-48 | Deleting any eligible rows on one side keeps the databases related. |
| CleanupInvisible.CleanupVisibleToMark | internal/statedb/refresh.go:171-181 | Cleanup up to now changes the answer of a mark exactly if the worker holds an unexpired claim on an active family whose absolute expiry has passed. |
| CleanupInvisible.CleanupVisibleToAbort | internal/statedb/refresh.go:193-203 | It changes the answer of an abort exactly if the worker holds a claim on such a family. |
| CleanupInvisible.CleanupVisibleToActions | internal/statedb/grants.go:61-79 | It changes the answer of storing new actions exactly if they can be stored and one of them is for a family whose absolute expiry has passed. |
| CleanupInvisible.ClaimOutlivesFamily | internal/statedb/refresh.go:171-203 | A run in which mark and abort are told apart in this way. |
| CleanupInvisible.ExpiredFamilyLingers | internal/statedb/grants.go:61-79 | One step reaches a family for which an action can be stored after its absolute expiry until it is deleted. |
| CleanupInvisible.SweepsTidyUp | internal/statedb/statedb.go:328-380 | A sweep that comes across every row leaves none whose time is over and nothing of a family that has gone, and no sweep changes a database without such rows. |
| Interference.ClaimingRun | internal/statedb/refresh.go:99-203 | Whatever other workers do, a claim's holder can rely on its mark, its fence, its family's profile and expiry. |
| Interference.UnclaimedRun | internal/statedb/refresh.go:99-168 | Before the claim, nobody else takes the worker's claim id and the family's profile and lifetime stand. |
| RefreshService.Service.Exchange | internal/refresh/service.go:74-135 | Under any interference: one mark for each credential sent upstream and at most one, an abort only after a configuration error; once a credential was sent, any failure but that leaves the family fenced, and dead if storage works; issued tokens lie within the refresh token and the family's first absolute expiry; a token used before kills the family; and after a temporary failure of an undisturbed exchange the token can be presented again. Left alone while no other claim runs, it issues tokens exactly if the token is good, policy, scopes, user and provenance permit the grant, the provider vouches for the user, and no limit has ended. |
| RefreshService.Service.Connector | internal/refresh/service.go:176-388 | The same for the connector exchange; without storage failures every return leaves the family dead or not held by this worker, and an undisturbed temporary failure leaves the database as it was, without the claim. Left alone with the claim free, it issues tokens exactly if the provider vouches for the user, by the stored credential or by the one it was rotated to, and they still have time to live. The credential kept for the new token is the one stored for the presented token if nothing was sent, and what the provider made of it if it was sent, with its expiries. |
| RefreshService.Service.RefreshCredential | internal/refresh/service.go:219-248 | Its mark is on record before the stored credential is sent, and it sends at most once; unless it failed temporarily after a configuration error a failure leaves the family dead; left alone and able to mark, it succeeds exactly if the provider answers with a credential. |
| RefreshService.Service.Revalidate | internal/refresh/service.go:206-275 | One rotation at most; left alone, it succeeds exactly if the provider knows the user by the stored credential, by the one it was rotated to before it expired, or by the one it was rotated to after it was rejected, and returns that credential and identity. |
| RefreshService.Service.AskAgain | internal/refresh/service.go:259-268 | A rejected credential is rotated and shown again, a provider that cannot answer now leaves the family as it was, without the claim, and any other answer stands. |
| RefreshService.Service.TakeAnswer | internal/refresh/service.go:229-247 | A doubtful answer revokes, a configuration error aborts, and a new credential keeps the old refresh token if it brings none. |
| RefreshService.Service.AcquireClaim | internal/refresh/service.go:177-204 | Sleeps no longer than the wait in all, gives up as busy only once the wait is over or the caller is gone, and then holds no claim; left alone, it takes a free claim at once. |
| RefreshService.Service.Install | internal/refresh/service.go:354-388 | Every completion under the claim but the last met a handle collision; what is installed carries the credential it was given, sealed for the new token, and knows when it ends; left alone, it succeeds exactly if the tokens have time to live and one of the handles generated is new. |
| RefreshService.Service.Complete | internal/refresh/service.go:361-372 | One completion: it seals the credential it was given for the new token and issues the tokens as planned, or changes nothing. |
| RefreshService.Service.Persist | internal/refresh/service.go:319-388 | Once rotated upstream, a failure ends the family; left alone, it issues tokens exactly if signing works, no limit has ended and one of the handles is new; the refresh token is issued then for the idle time, and access and ID token expire at their own time to live, the idle one, the family's end or the upstream login, whichever is first, by one reading of the clock. |
| RefreshService.Service.GiveUp | internal/refresh/service.go:383-388 | A failure of the service's own releases the claim, or ends the family if the credential was rotated. |
| RefreshService.Service.Accept | internal/refresh/service.go:271-318 | Tokens are issued only to the subject and address of the grant, verified as the mode asks; left alone, exactly to them, if nothing that follows fails. |
| RefreshService.Service.Direct | internal/refresh/service.go:138-173 | The exchange without an upstream: capped tokens, and an undisturbed failure changes nothing, unless the token was used before and the family is now dead; left alone, it issues tokens exactly if signing works, they have time to live and one of the handles is new; every expiry follows from one reading of the clock. |
| RefreshService.Service.Screen | internal/refresh/service.go:95-130 | Passes exactly what client, scopes, user, mode and provenance permit; a refusal that keeps the family is for a policy that does not answer or for scopes. |
| RefreshService.Service.PunishReplay | internal/refresh/service.go:80-93 | A replay found while preparing revokes the family and installs nothing. |
| RefreshService.RetrySucceeds | internal/refresh/service.go:206-275 | Families that an exchange left as they were, without its claim, let the same unexpired token claim again at every time at which no other claim runs, also over an expired one that never started; Exchange promises this of every undisturbed temporary failure. |
| RefreshService.CompletedSafely | internal/statedb/refresh.go:206-257 | A completion leaves the issued tokens within every lifetime, the refresh token for the idle time, and the given credential sealed for the new token with its expiries, or changes nothing. |
| RefreshService.AbortSettles | internal/statedb/refresh.go:193-203 | An abort inside the fence frees the family and undoes claim and mark. |
| RefreshService.Capped | internal/refresh/service.go:319-345 | A token expiry lowered to the refresh token's and to a known upstream access expiry, to one of them and not further. |
| RefreshService.Service.Cap | internal/refresh/service.go:319-345 | The family's absolute expiry after a rotation is the old one lowered to the credential's refresh expiry, and to its access expiry if it cannot be renewed; token and refresh expiries follow from it. |
| RefreshEndpoint.Endpoint.HandleRefresh | internal/oidc/handle_token.go:111-183 | Only a request with a fresh proof by the family's key, or without any for an unbound family, reaches the exchange; exactly those do when nothing fails, as the token and proof stand at readings of the clock within the request; a refused one does nothing to any family, even if its token is a replay, and reserves at most a proof by the family's key; a replay that gets through kills the family under any interference; left alone while no claim runs, tokens are issued exactly to a request so admitted whose exchange is in order. |
| RefreshEndpoint.Endpoint.Admit | internal/oidc/handle_token.go:111-176 | All before the exchange: who gets through, what is reserved, and that no family is touched. |
| RefreshEndpoint.Endpoint.Inspect | internal/oidc/handle_token.go:117-125 | Lets good tokens and replays through, and finds the key of the family. |
| RefreshEndpoint.Check | internal/oidc/handle_token.go:126-158 | Refuses exactly what is not admitted, each reason with its own error. |
| CodeExchange.Endpoint.ExchangeCode | internal/oidc/handle_token.go:200-419 | Whatever the rest of the system does in between, this request changes nothing before the others' last turn, a refusal changes nothing after it either, and tokens mean that the unchanged code was spent there, in the transaction that started its family. Left alone, it gives tokens exactly if policy, user and signing agree and the code is good for them. Each expiry is the first of its own limits by one reading of the clock, and the family holds the credential that was kept with the code when the tokens were prepared. |
| CodeExchange.Installed | internal/statedb/refresh.go:260-309 | What spending the code installs: the code's own identity and scopes, one unconsumed token, the credential sealed again for it and its temporary copy gone, and no token that outlives refresh token, session or upstream login; offline only with consent. |
| CodeExchange.Endpoint.Plan | internal/oidc/handle_token.go:316-372 | Plans exactly if the stored credential opens and nothing that limits the tokens has ended; the family's absolute expiry is lowered to the upstream login and refresh token, and each token expires with the first of its own time to live, the session, the family and the login. |
| CodeExchange.Endpoint.Spend | internal/oidc/handle_token.go:380-409 | Tries again only after one of its handles was there already, each time with the credential sealed again; a refusal means that this request spent nothing. Left alone, it gives tokens exactly if the code still matches, nothing has ended, and one of its handles is new; the reply carries the expiries and the family the credential that were prepared. |
| CodeExchange.Endpoint.TrySpend | internal/oidc/handle_token.go:380-387 | One attempt: it spends the code and starts the family, or changes nothing; left alone, it fails with a collision exactly if all but the handle is right. |
| CodeExchange.Endpoint.Prepare | internal/oidc/handle_token.go:288-379 | When storage answers, prepares exactly if signing works and the code can start its family, if it asks for one. |
| CodeExchange.RedeemableExact | internal/oidc/handle_token.go:200-409 | Of a code that is there and cleared, the attempts after its preparation succeed exactly if the code was good for tokens to begin with. |
| CodeExchange.SpendingExact | internal/statedb/refresh.go:260-309 | Spending succeeds exactly for the unchanged, unexpired code with a new session and a new handle, and reports a collision exactly if only the handle is there already. |
| TokenLifetimes.RotationBacks | internal/refresh/service.go:319-352 | Tokens issued by a rotation lie within their refresh token, that within the family, and they within the upstream login it renewed. |
| TokenLifetimes.CodeBacks | internal/oidc/handle_token.go:316-366 | The same for tokens issued for a code. |
| TokenLifetimes.NothingOutlives | internal/statedb/refresh.go:227-242 | Over any run, no access, ID or refresh token issued for a family, at whatever step and by whichever way, outlives the absolute expiry the family was created with. |
| FlowTheorems.AtMostOneTicket | internal/oidc/handle_selector.go:67-124 | At no time do two rows, handlers or codes stand for one authorization request. |
| FlowTheorems.AtMostOneCode | internal/oidc/handle_callback.go:124-193 | Over a whole run each authorization or pushed request yields at most one code. |
| FlowTheorems.AtMostOneAnswer | internal/statedb/refresh.go:274-283 | Tokens are given at most once for a code and at most once for a request. |
| FlowTheorems.LostForEver | internal/oidc/state.go:70-76 | A request that lost its row or handler never gets another. |
| FlowTheorems.CodeCarriesRequest | internal/oidc/handle_callback.go:173 | Every code carries the client, redirect, challenge, nonce, scopes, refresh mode, authentication time and key of its request, is marked pushed exactly if the request was and then asks for what was pushed; an offline one follows an accepted consent; grant management has none. |
| FlowTheorems.CodesAreVerified | internal/oidc/handle_callback.go:81-121 | Unless verification is off, the address in a code was proved by a one-time code sent to it or asserted by the connector the code names; in the strict mode it was proved. |
| FlowTheorems.StepKeeps | internal/oidc/handle_authorize.go:36-307 | Every storage call of every handler, every crash and every cleanup keeps all of this. |
| FlowTheorems.CompletedFits | internal/oidc/handle_callback.go:142-192 | A flow may end in a code only with the consent its mode needs and not to manage grants, and the code says what the flow said. |
| FlowTheorems.ServedFits | internal/oidc/handle_identity.go:35-55 | What a page does with the state it took keeps the request's data and the evidence for the user's address. |
| FlowRules.EveryCodeWasEarned | internal/oidc/handle_callback.go:124-192 | Over every run each code was issued by one step, for five minutes, to an accepted user in a handler's hand, and only with a known client, an allowed redirect URI, a pushed request where one is required, proof binding, refresh tokens and offline access as asked for, consent for it, an allowed user, and a credential exactly if the connector keeps them. |
| FlowRules.CodesAreEarned | internal/oidc/handle_callback.go:142-173 | The step of that theorem: no other step, and no other view of client and user, adds a code. |
| FlowRules.PagesAreServed | internal/oidc/state.go:70-76 | A page goes on with a state exactly if it has not expired at either reading and is one the page may go on with; a state that was there unexpired is gone. |
| FlowRules.PushedAreServed | internal/oidc/handle_authorize.go:170-231 | A pushed request is taken on exactly by its client, before it expires, if the client may still ask for what it says. |
| FlowRules.ProvedForEver | internal/statedb/statedb.go:192-214 | Over every run, an address proved by a one-time code counts as locally verified from then on. |
| FlowHandlers.Handlers.HandleAuthorize | internal/oidc/handle_authorize.go:36-146 | What is handed out stands for the request that was asked for; an offline request gets a consent page first and no other does. Left alone, every request is taken on, by a page or to the only connector. |
| FlowHandlers.Handlers.HandlePushedAuthorize | internal/oidc/handle_authorize.go:170-231 | A pushed request is spent and its page stands for the same request. Left alone, exactly an unexpired one of the client that it may still ask for is taken on. |
| FlowHandlers.Handlers.HandleAuthorizeContinue | internal/oidc/handle_authorize.go:234-261 | Shows a page for the state as it stands, or takes it on to the only connector. Left alone, which of these follows exactly from the state. |
| FlowHandlers.Handlers.HandleConsent | internal/oidc/handle_authorize.go:278-297 | A denied consent ends the flow and leaves nothing usable under its state; an accepted one goes on with the same request. Left alone, exactly an accepted consent to an unexpired offline request goes on. |
| FlowHandlers.Handlers.ContinueAuthorization | internal/oidc/handle_authorize.go:300-307 | The page handed out stands for the same request, and on the way upstream its row names the only connector. |
| FlowHandlers.Handlers.HandleSelect | internal/oidc/handle_selector.go:67-124 | The browser goes upstream with a row bound to the connector chosen, for the same request. Only to a running connector that is not an email one; left alone, exactly to those from an unexpired state without a connector. |
| FlowHandlers.Handlers.HandleEmailStart | internal/oidc/handle_email.go:43-77 | The state is replaced by a challenge for the same request. Only after a passed check, for an email connector and a usable address; left alone, exactly then if the state is unexpired and the address has quota. |
| FlowHandlers.Handlers.BeginOtp | internal/oidc/handle_email.go:98-125 | The challenge shown stands for the request, or the request is lost. Left alone, it is shown exactly if fewer than five codes went to the address in the last hour. |
| FlowHandlers.Handlers.HandleEmailVerify | internal/oidc/handle_email.go:128-191 | A right code resumes the challenge's request, which may end in a code at its redirect with its state. Left alone, exactly the code last sent, in time and after less than five misses, finishes the flow. |
| FlowHandlers.Handlers.HandleEmailResend | internal/oidc/handle_email.go:194-230 | Left alone, a code is sent again exactly for an unexpired challenge, a minute after the last, within the quota of its address. |
| FlowHandlers.Handlers.HandleCallback | internal/oidc/handle_callback.go:21-78 | Answers for the request the state stood for; with several addresses the state stays and the selection offered points to it. Left alone, several addresses lead to a choice as long as the state may be kept for it, one address to what becomes of it, and a state of another connector to a refusal. |
| FlowHandlers.Handlers.HandleIdentitySelect | internal/oidc/handle_identity.go:35-55 | Answers for the request of the state that the selection pointed to. Left alone, exactly an address that an unexpired selection offered goes on. |
| FlowHandlers.Handlers.AcceptOrChallenge | internal/oidc/handle_callback.go:81-116 | Accepts, challenges or refuses, for the same request. Left alone, an address that is verified as the mode asks goes on, any other is sent a code if there is a mailer and quota, or is refused. |
| FlowHandlers.Handlers.CompleteFlow | internal/oidc/handle_callback.go:124-192 | The code it issues is the request's only one and goes to the request's redirect URI with the request's state. It is issued only to an allowed user of a client that may have it, with consent where asked for; left alone, exactly then if the flow's credential is as its connector has it, and the code can then be redeemed with that credential. |
| FlowHandlers.Handlers.DecodeState | internal/oidc/state.go:70-76 | Nothing usable is left under the token, the handler holds its request, and the page's rule decides what it does next. |
| FlowHandlers.Handlers.EncodeState | internal/oidc/state.go:37-66 | The flow in hand is stored as it is, under a token never handed out before, for the same request. |
| FlowHandlers.OthersUntouched | internal/oidc/state.go:37-85 | No step of another worker changes what a handler holds. |
| ReplayCache.Cache.Reserve | internal/dpop/replay.go:69-83 | Expired entries leave and no others; verdict and new entry are those of a map of hashes with times, whose verdicts AnswersExactly gives; heap and map keep the same pairs, heap order and capacity. |
| ReplayCache.Cache.RemoveExpired | internal/dpop/replay.go:86-93 | Leaves exactly the unexpired entries. |
| ReplayCache.Cache.HeapPush | internal/dpop/replay.go:33-42 | Keeps heap order and adds one entry. |
| ReplayCache.Cache.HeapPop | internal/dpop/replay.go:45-50 | Removes the earliest entry and keeps heap order. |
| ReplayCache.ReplayExact | internal/dpop/replay.go:69-93 | A proof presented again is a replay exactly until some clock reading since then has reached the end of its retention. |
| ReplayCache.AnswersExactly | internal/dpop/replay.go:69-83 | Over any calls, a hash is a replay exactly while its own reservation runs, is turned away as full exactly if it is not and as many others run as there is room for, and is reserved otherwise. |
| ReplayCache.AcceptedAgain | internal/dpop/dpop.go:155 | With one reading for check and reservation and a clock that does not go back, a second presentation within fifteen seconds is rejected, and one that is accepted comes exactly fifteen seconds after the first. |
| ReplayCache.AcceptedTwice | internal/oidc/handle_revoke.go:66-74 | Such a second acceptance exists. |
| ReplayCache.SeparateReadings | internal/oidc/handle_token.go:150-165 | With separate readings and a clock that does not go back, a proof is a replay exactly if its reservation comes within the retention after its last one. |
| ReplayCache.SecondWaits | internal/oidc/handle_token.go:150-165 | So a second acceptance waited at least as long between check and reservation as the first. |
| ReplayCache.SeparatelyAcceptedTwice | internal/oidc/handle_token.go:150-165 | And it happens, to a proof checked again a second later. |
| ReplayCache.SizeBound | internal/dpop/replay.go:74-76 | The cache never exceeds its capacity. |
| ReplayCache.SameSize | internal/dpop/replay.go:52-57 | Heap and map are of one size. |
| LruCache.Lru.Remove | internal/authpolicy/postgresql.go:792-795 | List and map lose the same entry and stay in step. |
| LruCache.Lru.Trim | internal/authpolicy/postgresql.go:786-788 | Only the last entries leave, until the limit holds. |
| LruCache.WithoutKeeps | internal/authpolicy/postgresql.go:792-795 | Removing a key keeps every other entry. |
| PolicyCaches.ClientCache.ClientExists | internal/authpolicy/postgresql.go:433-498 | A hit is a fresh entry and moves to the front; a stale one is removed; only a cached lookup with a definitive answer fills the cache, with the time to live of its answer. |
| PolicyCaches.ClientCache.PutClient | internal/authpolicy/postgresql.go:778-789 | The entry replaces its predecessor, comes first, and the last entries leave. |
| PolicyCaches.HitIsFresh | internal/authpolicy/postgresql.go:452-490 | In any interleaving a hit is the answer of the last lookup that filled the key, less than its time to live ago. |
| PolicyCaches.FilledIsHit | internal/authpolicy/postgresql.go:447-490 | A lookup that fills its key leaves it in the cache, and while it is there it is a hit exactly until its time to live is over. |
| PolicyCaches.ClientsBounded | internal/authpolicy/postgresql.go:786-788 | No key twice and never more than the configured entries. |
| PolicyCaches.OrderedByUse | internal/authpolicy/postgresql.go:457 | The list is in the order of last use. |
| PolicyCaches.EvictsLeastRecentlyUsed | internal/authpolicy/postgresql.go:786-788 | A key leaves only when looked up after its time, or when another is filled into a full cache and no key was used longer ago. |
| SchemaFlights.Transparent | internal/authpolicy/postgresql.go:798-835 | However calls interleave, each returns what compiling its own canonical schema gives. |
| SchemaFlights.InsertsAbsentKey | internal/authpolicy/postgresql.go:807-829 | The cache holds each key once, within its limit, and only correctly compiled schemas; a key is inserted only while absent. |
| SchemaFlights.SingleFlight | internal/authpolicy/postgresql.go:807 | No two workers fill one key at the same time. |
| SchemaFlights.CacheIsUsed | internal/authpolicy/postgresql.go:798-829 | A cached schema is returned without a flight, a compiled one is cached, and who finds its key in flight waits. |
| SchemaFlights.WaitersReturn | internal/authpolicy/postgresql.go:807-835 | When a flight lands, everyone waiting for it returns with what compiling gives, and the key is free. |
| SchemaFlights.OrderedByUse | internal/authpolicy/postgresql.go:800-813 | The list is in the order of last use, however calls interleave. |
| SchemaFlights.EvictsLeastRecentlyUsed | internal/authpolicy/postgresql.go:822-826 | A schema leaves only when another is inserted into a full cache and none was used longer ago. |
| SchemaFlights.SchemaCache.Touch | internal/authpolicy/postgresql.go:799-806 | A cached schema is returned and comes first. |
| SchemaFlights.SchemaCache.Insert | internal/authpolicy/postgresql.go:820-828 | A new schema comes first and the last entries leave. |
| TextArray.ValidateTextArrayWire | internal/authpolicy/postgresql.go:321-384 | Accepts a value exactly if it is the text of an array of at most so many non-null elements of one to so many bytes. |
| TextArray.ParseExact | internal/authpolicy/postgresql.go:321-384 | A value parses to a list exactly if it is that list's text and the list is within the limits. |
| TextArray.OneReading | internal/authpolicy/postgresql.go:321-384 | No value is the text of two lists. |
| TextArray.ScanElement | internal/authpolicy/postgresql.go:341-365 | The inner loop finds the parts of one element, or that there is none. |
| TextArray.NextElement | internal/authpolicy/postgresql.go:334-381 | One turn of the outer loop. |
| TextArray.QuotedRoundTrip | internal/authpolicy/postgresql.go:321-384 | Quoting and escaping any list within the limits gives a value that is accepted and reads back as the list. |
| TextArray.SpellingsAreRead | internal/authpolicy/postgresql.go:321-384 | However a list is spelled, each byte as it is where that is allowed or after a backslash, it is accepted and reads back, unless something unquoted spells null. |
| TextArray.NullInAnyCase | internal/authpolicy/postgresql.go:368-370 | Which is the word in any case. |
| TextArray.AcceptedLength | internal/authpolicy/postgresql.go:251 | Every accepted value is within the length the cells are checked against. |
| RowBudget.CheckRawRow | internal/authpolicy/postgresql.go:247-300 | Accepts a row exactly if every cell is present and fits its column and JSON and row are within budget, and reports both sizes. |
| RowBudget.CellLimits | internal/authpolicy/postgresql.go:256-292 | The limit of each column by name. |
| RowBudget.RowBudgetNeverTrips | internal/authpolicy/postgresql.go:303-306 | Cells within their limits never exceed the budget of a trust issuer or trust binding row. |
| RowBudget.TrustRowsFit | internal/authpolicy/postgresql.go:309-318 | Within the configured ranges the hard cap never binds and the message of an acceptable trust row always fits. |
| RowBudget.GroupsLengthRedundant | internal/authpolicy/postgresql.go:277-283 | The length check on groups never refuses what the array check accepts. |
| TokenFormat.ParseRefreshToken | internal/statedb/refresh.go:358-381 | Accepts exactly the tokens generated from a handle and a secret of the right sizes, and returns that material. |
| TokenFormat.GenerateRefreshMaterial | internal/statedb/refresh.go:343-355 | Parsing the generated token gives exactly the generated material back. |
| TokenFormat.TokensDistinct | internal/statedb/refresh.go:351 | Different handles or secrets give different tokens. |
| TokenFormat.Alphabet | internal/statedb/refresh.go:351 | The letters stand in the order of section 5 of RFC 4648. |
| TokenFormat.KnownAnswers | internal/statedb/refresh.go:351 | Test vectors of section 10 of RFC 4648, without padding. |
| TokenFormat.StrictDecoding | internal/statedb/refresh.go:364-374 | Strict decoding undoes encoding; what it accepts is an encoding but for line ends, so encoding again refuses exactly the texts with line ends. |
| TokenFormat.LineEndDecodes | internal/statedb/refresh.go:372-374 | Without that comparison a token would have other spellings. |
| TokenFormat.CredentialAAD | internal/statedb/refresh.go:384-391 | A version byte and the three fields, each after its length. |
| TokenFormat.AADInjective | internal/statedb/refresh.go:384-391 | Contexts with fields below four gibibytes have different encodings. |
| TokenFormat.ReplayHash | internal/dpop/dpop.go:254-262 | The hash of a version byte and the four fields, each after its length. |
| TokenFormat.ReplayHashInjective | internal/dpop/dpop.go:254-262 | Proofs that differ in a field below four gibibytes have different hashes. |
| TokenFormat.LongFieldsCollide | internal/statedb/refresh.go:387 | At four gibibytes the length no longer tells fields apart. |
| TrustSchema.CheckMatchesSchema | trustpolicy/policy.go:166-198 | At every depth the check accepts a value exactly if that layer of the generated schema does and no string in it is longer in bytes than the limit. |
| TrustSchema.CheckAgreesWithSchema | trustpolicy/schema.go:67-111 | What the check accepts the schema accepts, and for ASCII strings the two agree. |
| TrustSchema.BytesAreNotCharacters | trustpolicy/policy.go:192-195 | A string for which they differ. |
| TrustSchema.SchemaDefinitions | trustpolicy/schema.go:67-79 | The loop defines every layer from the first to the last. |
| TrustSchema.LayerMeaning | trustpolicy/schema.go:82-111 | What one layer asks of a value, its six variants told apart by type. |
| TrustSchema.SafetyLimits | trustpolicy/policy.go:52-55 | The eight prohibited keywords by name, and the limits on depth, members, items and strings. |
| ClaimPolicy.NamesAgreeWithSchema | trustpolicy/policy.go:66-73 | For a known provider a name is accepted exactly if the provider's schema admits the key and the name is not too long in bytes; for ASCII names the two agree. |
| ClaimPolicy.UnknownProvider | trustpolicy/policy.go:67-70 | A provider without a rule gets exactly the standard claims. |
| ClaimPolicy.StandardExactly | trustpolicy/policy.go:35-38 | The eleven standard claims by name. |
| ClaimPolicy.BuildSchema | trustpolicy/policy.go:90-125 | Succeeds exactly if every fragment is JSON of at most sixteen kibibytes that the generated schema's outermost layer accepts with no string too long in bytes, every name is sound, and no more than 64 claims and 64 kibibytes of text result; what it returns lists the names in order, each with its own fragment, the required one or both, in whatever order the maps are visited. |
| ClaimPolicy.SoundIsSafe | trustpolicy/policy.go:150-163 | Claims pass the runtime check exactly if their names are sound and the generated schema accepts their fragments, as far as it counts bytes. |
| ClaimPolicy.EffectiveIsComposed | trustpolicy/policy.go:90-119 | The effective document is the one composed of the fragments themselves. |
| ClaimPolicy.OrderIndependent | trustpolicy/policy.go:118-120 | There is only one effective document. |
| ClaimPolicy.EffectiveMeaning | trustpolicy/policy.go:111-119 | A token satisfies the effective schema exactly if every named claim is present and satisfies its ordinary and its required fragment. |
| ClaimPolicy.MergeClaims | internal/authpolicy/postgresql.go:618-621 | The claims of the binding replace those of the policy. |
| ClaimPolicy.RequiredSurvives | internal/authpolicy/postgresql.go:618-632 | No claims of a binding can admit a token that a required fragment rejects, and what the binding does not name keeps its policy fragment. |

## Left out

- HTTP: parsing of requests, rendering, headers, logging and rate limits. A handler is given the
  parameters that its own checks have admitted, and its outcome is a value.
- Signatures and key handling: JWTs, DPoP proof headers, ECDSA, AES-GCM, HKDF and HMAC. Whether a proof
  verifies and whether signing succeeds are inputs.
- Upstream connectors: what they answer is an input, with the kinds of error the service tells apart.
- The deadline of upstream calls: a call that runs out of time is one that answers with an error.
- SQL, drivers and lock order: a transaction is one step, also where it locks rows one by one.
- The choice of five hundred rows in a cleanup batch: a batch is any selection of eligible rows.
- Lower-casing and trimming of addresses, scopes and subjects: addresses that normalize are given by a
  table, blank subjects are told for ASCII white space only, and grants store the address as it comes.
- Column encodings: an identifier and its expiry, or a nonce and its ciphertext, that are always set
  together are one optional value.
- The fields of a temporary credential that no decision reads, such as the access token itself.
- GetAndDeleteAuthCode: nothing calls it.
- The token exchange grant, userinfo, key sets, discovery and health endpoints.
- PKCE: a code challenge is computed from the verifier elsewhere and compared here.
- The JSON Schema library: validity of a fragment is any relation, and the meta-schema that fragments
  must also satisfy is not modelled; neither is the text of a schema, only what it asks.
- A canonical schema's size: the length of its text is given by a function of the document.
- Iteration order in error messages: where several claims are invalid, which one is named.
- The issue time of a proof is a real number where the source compares floating-point seconds.
- mergeScopes, sorting of groups and subset checks on scopes: small and self-contained.
- CleanupInvisible.CleanupIsInvisible: does not compare the answers of marks and aborts, which can
  tell, takes new actions to be for families that have not expired, and compares the failures of
  rotation and claim as failures, whatever their kind.
- FlowHandlers.Handlers.HandleAuthorize: starts after the checks of the request's parameters; grant
  management starts the same way with no client.
