# Verification of the identity provider's grant store

A model in Dafny of the part of the provider that decides whether a credential is valid, and proofs of
what every run of it keeps. Three machines are modelled.

**The grant ledger.** One store of sessions, app sessions, authorization requests, codes, access tokens,
refresh families, consents, clients, accounts, policies and logout deliveries; the cascades that change
them; and every transaction the identity and protocol services run on it, as one state machine. Each
handler reads in one transaction and writes in another, so a step may act on a client record, the row of a
signed-in session or a logout interaction stored at any earlier moment of the run, and on an earlier reading
of the clock.

**The logout outbox.** Workers lease, send and complete notices; they may crash anywhere.

**Two small machines.** The signing-key store under crashes between file operations, and the fixed-window
limiter.

## How it is built

| module | content |
|---|---|
| `Records`, `Validity` | the records, the configuration, and the two validity predicates |
| `Cascades` | the store's cascades as closed forms, one comprehension per map |
| `Store` | class `FileState`: the maps, and loops over them proved equal to the closed forms for every iteration order |
| `Accounts`, `Clients`, `Logouts`, `Authorization`, `TokenEndpoint`, `Deliveries`, `Monitor` | each transaction as a function from the store it finds to what it commits, and its soundness |
| `IdentityService`, `OidcService` | the service methods, working on a `FileState`, proved equal to those functions |
| `Invariants`, `Evolution` | what holds of every reachable store, and what one transaction may do to older records |
| `Flags`, `Changes`, `Purges`, `Steps` | the inductive step, one primitive change at a time |
| `Machine` | events, worlds, runs; every run keeps the invariant |
| `Issuance`, `Responses`, `Terminations` | what the steps that issue, answer and end come to: when exactly each commits, what exactly it stores, and what it leaves alone |
| `Permissions` | what an accepted policy and accepted entitlements are worth |
| `Finality`, `Replay`, `Linkage`, `Requests`, `CodeFlow`, `OpenRequests`, `Interactions`, `Introspection`, `Maintenance`, `Effects` | the theorems about runs: credentials, requests, browser logout, the sweep |
| `Endings`, `Leases`, `Failures`, `OutboxRuns` | the theorems about runs of the logout outbox |
| `Outbox` | one delivery: verdicts, leases, delays, pace |
| `KeyStore`, `Limiter` | the two small machines |

A random token and its hash are one identifier, drawn outside the set of identifiers used so far. A
timestamp that may be zero is an `Option`. `Sound(s, r, tx)` says that a change from `s` to `r` keeps the
invariant `Inv` and evolves old records only as `Evolves` allows; `Tx` carries what was drawn before and
by the end of the transaction, its clock, and what it does that others may not (`Machine.TxOf`).

## Findings

- `AccessTokenActive` looks at nine records, but in a reachable store it depends on four facts only
  (`Finality.ActiveExactly`); that is why inactivity is final.
- A token can be inactive when it is issued: a client registered and saved again at one reading of the
  clock has a revision ahead of the clock, and whatever it is issued at that reading is inactive
  (`Finality.RevisionAhead`). A token just issued is active exactly when the revision is not ahead
  (`Finality.IssuedActive`, `Finality.ExchangeIssues`).
- A replay of a used code revokes its refresh family exactly when the code is not flagged revoked;
  ending the session flags the code and keeps the family, and a flagged code is refused for good
  (`Replay.ReplayRevokesExactly`, `Replay.LogoutShieldsFamily`, `Replay.FlaggedRefusedForGood`).
- An inactive refresh family becomes active again exactly when only the consent's scopes had left it
  uncovered (`Finality.FamilyReactivation`, with the example `Finality.NarrowThenWiden`).
- "A failed delivery is final" is false: giving up leaves the lease in place, and a late answer under it
  still counts (`Failures.LateAnswer`). A failure ends at a step exactly when the step records an answer
  that is not a permanent failure under that lease, or is an administrator's retry (`Failures.FailureEnds`);
  without a lease and without a retry it is final (`Failures.FailedForGood`). Acknowledged deliveries are
  final.
- "A confirmed browser logout is final" is false: binding writes back a copy read before the confirmation
  (`Interactions.BindingReopens`). A closed interaction opens at a step exactly when the step binds a copy
  that was read unbound and not completed and has not expired (`Interactions.ReopenStep`), and that copy was
  stored before it was closed (`Interactions.ClosedUnlessRebound`). Cancelling never opens one.
- "An ended session has no open authorization request" is false: a request can be stored from a session row
  read before the session ended (`OpenRequests.EndedThenStarted`). It holds up to a moment of a run exactly
  when no earlier step did that (`OpenRequests.NoOpenRequest`). Such a request can be approved from another,
  live session of the same account, and the code is bound to that session (`OpenRequests.StaleAnswered`).

## Model

| member | source | states |
|---|---|---|
| Finality.ActiveExactly | internal/identity/token_state.go:11-81 | in every reachable store, activity is exactly: not revoked, not expired, client not changed since issue, bound session active |
| Finality.InactivityIsFinal | internal/identity/token_state.go:11-81 | once an access token is inactive or gone it is inactive at every later moment of any run with a clock that does not go back |
| Finality.TokenWasActive | internal/identity/file_store.go:212-321 | no single step makes an old token active |
| Finality.SessionWasActive | internal/identity/service.go:177-197 | a session active after a step was active before it: a reused session had not expired |
| Finality.IssuedActive | internal/identity/token_state.go:24-33 | a token just issued is active if and only if the client's revision is not ahead of the clock |
| Issuance.ExchangeCommits | internal/oidc/token.go:73-135 | a first presentation is honoured if and only if the code is this client's, unrevoked, unexpired and bound to this URI and verifier, client and account are as they were, its session is active and has room, and a refresh family is allowed if its scopes ask for one |
| Issuance.ExchangeYields | internal/oidc/token.go:110-157 | an honoured first presentation stores the access token with the code's client, account, scopes, session and lifetime; with offline access the family and its first refresh token, to which the token belongs, with both expiries; without it neither; it joins one live app session or starts it; and the code is used up and kept as long as what came from it |
| Issuance.RefreshCommits | internal/oidc/refresh.go:53-109 | an unused refresh token is honoured if and only if its family is this client's at its current revision and active, and the audience and scopes asked for are within the token's |
| Issuance.RefreshYields | internal/oidc/refresh.go:110-118 | a rotation stores an access token and the next refresh token for the scopes asked for, else the presented token's, with the family's audience, account, client, code and lifetime; uses the presented token up; and moves the idle expiry to the smaller of the inactivity limit and the absolute expiry |
| Issuance.ResourceYields | internal/oidc/oauth.go:270-361 | client_credentials and password commit if and only if the grant is open to the client and what is asked for, or the default, is permitted by policy, configuration and entitlements; one token is stored, for exactly that |
| Issuance.ActiveMeans | internal/identity/token_state.go:11-81 | an active token's client, account, family, session and app session are still good, and each scope of a resource token is one that policy, enabled resource and entitlements still allow |
| Permissions.PolicyDecides | internal/identity/oauth.go:109-158 | once a policy is accepted, client_credentials gets exactly what it offers on an enabled resource: no other check can fail |
| Permissions.EntitlementDecides | internal/identity/oauth.go:109-194 | with a password exactly what the policy offers and the account is entitled to, if the policy enables passwords |
| Permissions.OfflineDecides | internal/oidc/refresh.go:31-43 | while client and policy stay, offline access takes only the policy's word, the configuration's and a covering consent |
| Permissions.InspectionDecides | internal/oidc/oauth.go:148-164 | once a policy is accepted, the client may introspect exactly if it says so |
| Finality.ExchangeIssues | internal/oidc/token.go:73-157 | the code grant issues an active token, given only that the revision is not ahead |
| Finality.RefreshIssues | internal/oidc/refresh.go:53-118 | the refresh grant issues an active token, given only that the revision is not ahead |
| Finality.ResourceIssues | internal/oidc/oauth.go:325-355 | client_credentials and password issue an active token, given only that the revision is not ahead |
| Finality.RevisionAhead | internal/identity/file_store.go:281-292 | the condition can fail: a client registered and saved again at one reading is one revision ahead of it, and every client_credentials token its policy allows at that reading is issued and inactive |
| Finality.FamilyActiveExactly | internal/identity/token_state.go:82-115 | in every reachable store, family activity is exactly: not revoked, not idle, covered by the consent |
| Finality.FamilyDeathIsFinal | internal/identity/token_state.go:82-85 | revocation, absolute expiry and idleness of a family are final in every run |
| Finality.FamilyReactivation | internal/identity/token_state.go:82-115 | a family goes from inactive to active exactly when a consent that did not cover it covers it again, all else having held throughout |
| Finality.NarrowThenWiden | internal/oidc/interaction.go:155-163 | a narrower consent silences an active family and the old one revives it |
| Replay.ExchangedOnce | internal/oidc/token.go:79-95 | a code is exchanged at most once in any run, whatever the clock does |
| Replay.ReplayEndsDescendants | internal/oidc/token.go:89-95 | after a bound second presentation of an unrevoked code, no token or family from it, later rotations included, is active at any later moment (section 4.1.2 of RFC 6749) |
| Replay.SpentForGood | internal/identity/file_store.go:397-410 | a code whose descendants are all revoked never yields a live one again |
| Replay.ReplayRevokesExactly | internal/oidc/token.go:79-95 | a bound presentation of a used code revokes its families if and only if the code is not flagged revoked |
| Replay.LogoutShieldsFamily | internal/identity/sessions.go:136-164 | ending the session of a used code flags the code and keeps its unrevoked family, so that a replay is refused |
| Replay.FlaggedRefusedForGood | internal/oidc/token.go:73-95 | in every run a flagged code is refused at every later presentation, and nothing changes |
| Replay.OfflineSurvivesLogout | internal/identity/sessions.go:136-190 | ending sessions leaves refresh families, refresh tokens and family-backed access tokens as they were |
| Replay.RotationChain | internal/oidc/refresh.go:92-118 | every stored family has exactly one unconsumed token, with scopes within every earlier token's and the code's; idle expiry is within the absolute one |
| Replay.FamilyConstants | internal/oidc/refresh.go:110-115 | along any run a family changes only its idle expiry and its revoked flag |
| Replay.ReuseEndsFamily | internal/oidc/refresh.go:79-83 | presenting a consumed refresh token ends its family and every token it backs for good (section 4.14.2 of RFC 9700) |
| Linkage.EvidenceOutlives | internal/identity/file_store.go:444-471 | an unrevoked token from a code finds the code stored, used, of the same client and user; a family token finds its family; pruning at any time keeps this |
| Linkage.RunLinked | internal/identity/sessions.go:136-190 | one row per session; one live app session per session and client, with a live session of its user; codes and online tokens without one are revoked |
| Linkage.EndedForGood | internal/identity/service.go:187-195 | an ended session identifier never becomes live again |
| Linkage.SameRevisionSameClient | internal/identity/file_store.go:281-292 | the same revision of a client at two moments is the same metadata and secret, even when the clock stands still or goes back |
| Linkage.AuthenticatedIsCurrent | internal/oidc/token.go:82-88 | an exchange, refresh, resource grant, revocation or silent authorization commits only if the record that authenticated it is still the client's |
| Linkage.AlwaysAdministered | internal/identity/service.go:309-374 | once there is an account there is an active administrator at every moment |
| Requests.AnsweredOnce | internal/oidc/interaction.go:90-104 | competing continuations cannot both answer a request |
| Requests.RequestHonoured | internal/oidc/authorize.go:178-255 | whoever answers a request signed in after it if it demanded so, else is the account it started with and still fresh; prompt=consent takes a decision; the code is for the client, redirect URI and challenge of the request as it was sent, whatever happened in between |
| CodeFlow.TokenOfRequest | internal/oidc/token.go:73-157 | over whole runs: the token a code yields goes to the client that asked, at the redirect URI and with the verifier it committed to, for the account and session that answered, and for no scope not asked for and approved |
| Authorization.AuthorizeStores | internal/oidc/authorize.go:178-259 | a request is stored if and only if the client may ask it and it allows interaction; it keeps the request's redirect URI, challenge, max_age and consent demand, the binding, client and revision, and exactly the supported scopes asked for; it is bound to an account only if no sign-in is needed |
| Responses.AnswerCommits | internal/oidc/interaction.go:90-138 | an answer is accepted if and only if the request is open, this browser's, its client unchanged, and the live session is of an active account that it admits, signed in late enough |
| Responses.AnswerStores | internal/oidc/interaction.go:98-178 | an approval issues a code for the request's client, URI and challenge and exactly the scopes requested and approved, and stores that consent; a refusal uses the request up and changes nothing else; asking where it stands only binds it, or issues the code if a consent covers it and no decision is demanded |
| Responses.SilentStores | internal/oidc/interaction.go:215-276 | without interaction a request is honoured if and only if the client may ask it and the browser's session, seen before and still there, is fresh and covered by a consent; the code is for exactly the URI, challenge and supported scopes asked for |
| OutboxRuns.OutboxConserved | internal/identity/sessions.go:165-237 | the app sessions named by stored notices are exactly the stored ended ones, created when they ended; each has channel notices or the unsupported one, not both |
| Endings.NoticesOnEnding | internal/identity/sessions.go:191-237 | if an app session is live at one moment of a run and ended at the next, then at every later moment at which it is stored it has a notice to exactly the back-channel and front-channel URIs of its client's metadata just before it ended, or the unsupported record if there are none, naming session, client, time and reason, and with a status of that channel |
| Endings.NotifiedExactly | internal/identity/sessions.go:165-237 | conservation: every stored ended app session was ended by one step of the run and has exactly the notices its client's metadata asked for then |
| Terminations.AppNoticesExactly | internal/identity/sessions.go:165-208 | ending a live app session queues a pending notice to exactly the client's back-channel URI, due at once, without lease or attempt; one waiting for a page to exactly its front-channel URI; the unsupported record if it has neither; and nothing else |
| Terminations.SessionNoticesExactly | internal/identity/sessions.go:136-208 | the same when the whole session ends |
| Terminations.AppsStopExactly | internal/identity/sessions.go:165-190 | ending app sessions ends exactly the live ones among them and flags exactly their online tokens and the codes and requests of their session and client |
| Terminations.SessionsStopExactly | internal/identity/sessions.go:136-190 | ending sessions ends exactly their live rows and the live app sessions of those, and flags exactly their online tokens and the codes and requests bound to them |
| Terminations.RevokesExactly | internal/identity/oauth_store.go:66-79 | revocation flags exactly the given families and tokens and the families' tokens |
| Terminations.OneSessionEnded | internal/identity/sessions.go:444-460 | ending one session commits if and only if it is the caller's own or the caller is an administrator; then it is over, every other session is as it was, and with offline access exactly its families are revoked |
| Terminations.OneAppEnded | internal/identity/sessions.go:473-486 | the same for one app session |
| Terminations.OwnSessionsEnded | internal/identity/sessions.go:461-472 | signing out one's sessions takes the password and ends exactly those, the present one only if asked |
| Terminations.UserSessionsEnded | internal/identity/sessions.go:487-502 | only an administrator, with the password, signs out another account, and exactly that one |
| Terminations.AccessWithdrawn | internal/identity/sessions.go:503-532 | withdrawing a client's access takes a consent and the password, revokes that consent and exactly the pair's families, ends exactly the pair's app sessions and no session |
| Terminations.NoticeRetried | internal/identity/sessions.go:533-549 | a retry takes an administrator and a failed back-channel notice at most 24 hours old, and makes exactly that notice pending and due |
| Leases.GrantedInTime | internal/oidc/logout_delivery.go:64-103 | a step of a run that leases a notice finds it waiting, its last lease run out and its attempt due, less than 24 hours after its creation, and addressed to the endpoint its client has at that moment; and leaves it leased for 30 seconds |
| Leases.NoSecondLease | internal/oidc/logout_delivery.go:69-116 | in every run with a clock that does not go back, two grants of one notice without the first's result recorded between them are at least 30 seconds apart |
| OutboxRuns.LeaseLost | internal/oidc/logout_delivery.go:109-116 | a lease that no longer holds a notice never holds it again |
| OutboxRuns.AppliedOnce | internal/oidc/logout_delivery.go:108-145 | a lease's result is applied at most once in any run |
| OutboxRuns.SentForGood | internal/oidc/logout_delivery.go:124-125 | an acknowledged notice, and one handed to a page, changes no more until retention deletes it |
| OutboxRuns.HandedOnce | internal/oidc/logout.go:291-317 | in every run a front-channel notice is handed to at most one page |
| OutboxRuns.AttemptBound | internal/oidc/logout_delivery.go:69-139 | with a clock that does not go back and without retries by hand a notice is attempted at most 2883 times whatever crashes, and at most 93 times if every result is recorded |
| Outbox.RetryDelayRange | internal/oidc/logout_delivery.go:130-138 | every delay lies between 2 seconds and an hour and is no shorter than the exponential backoff |
| Outbox.RetryAfterHonoured | internal/oidc/logout_delivery.go:130-138 | a receiver's Retry-After is waited out, up to an hour, and decides the wait when it exceeds what the backoff can reach; without one the wait exceeds the backoff by exactly the jitter |
| Outbox.BackoffDoubles | internal/oidc/logout_delivery.go:130-131 | the backoff starts at 2 seconds and doubles with each of ten attempts |
| Outbox.AnswerRecorded | internal/oidc/logout_delivery.go:108-145 | an answer ends the lease and is kept as the last of at most 50; an acknowledgement or permanent failure settles the notice, anything else makes it due after Retry-After and backoff; nothing else changes |
| Outbox.AcquireMoves | internal/oidc/logout_delivery.go:67-101 | a pass changes each notice only by its own verdict and leases the first it may |
| Outbox.EarliestFirst | internal/oidc/logout_delivery.go:67-100 | the leased notice has waited longest among those that can be leased |
| Outbox.JudgedPaced | internal/oidc/logout_delivery.go:76-97 | a lease keeps the pace: no lease sooner than the gaps allow |
| Outbox.RecordedPaced | internal/oidc/logout_delivery.go:113-140 | a recorded result keeps the pace: the backoff is never undercut |
| Outbox.AttemptsBounded | internal/oidc/logout_delivery.go:69-139 | a notice that keeps the pace stays within the two bounds |
| Introspection.ReportedWasActive | internal/oidc/oauth.go:148-185 | a token reported active was active at every earlier moment since it was drawn |
| Introspection.ReportedIsUsable | internal/oidc/oauth.go:189-214 | a refresh token is reported active exactly when its client, allowed to inspect it, could use it now for all its scopes |
| Introspection.RefusedExactly | internal/oidc/oauth.go:158-167 | introspection is refused exactly to a client whose record is not current, that has no secret, or whose policy does not let it |
| Introspection.TokenReportedExactly | internal/oidc/oauth.go:164-185 | in a reachable store a token is reported if and only if the client may ask, its policy lists the token's audience, and the token is active |
| Introspection.ReportedUntil | internal/oidc/oauth.go:189-214 | a refresh token is reported with its own scopes and family, and with the moment until which, if nothing else happens, it can be used |
| Maintenance.DueExactly | internal/identity/sessions.go:596-624 | the detector is silent exactly when the sweep would change nothing |
| Maintenance.SweepIdempotent | internal/identity/sessions.go:209-237 | sweeping twice at one time is sweeping once |
| Maintenance.SweptNotDue | internal/identity/sessions.go:209-237 | after a sweep the detector is silent |
| Maintenance.SweptExactly | internal/identity/sessions.go:209-237 | the sweep ends exactly the live sessions past their expiry, forgets exactly what has been over for more than 30 days and interactions past their expiry, and keeps the rest |
| Maintenance.PrunedExactly | internal/identity/file_store.go:444-471 | pruning keeps exactly the unexpired tokens and requests, the codes valid or kept as evidence, the families retained and their refresh tokens |
| Monitor.ViewAgrees | internal/identity/monitor.go:298-403 | revocation commits a change exactly for records listed as active, which are then listed as revoked; repeating it changes nothing |
| Monitor.RecordRevokedOnly | internal/identity/monitor.go:322-398 | revoking an active record flags it and what it led to, and nothing else: a token alone, a family with its tokens, a code with the unexpired tokens from it, a request with its usable codes and theirs, a consent with the pair's families and app sessions |
| Monitor.GrantRevocationQuiet | internal/identity/monitor.go:376-398 | revoking a consent leaves no active code, token or request, no unrevoked family and no live app session of that user and client |
| Monitor.ClientAccessQuiet | internal/identity/sessions.go:503-533 | withdrawing a client's access from the session pages leaves nothing of the pair usable either |
| Monitor.RevokeCodesUnion | internal/identity/monitor.go:329-340 | revoking codes one after another, in any order, is revoking them together |
| Monitor.RevokeActivitySound | internal/identity/monitor.go:298-403 | revocation by hand keeps the invariant |
| Machine.RunReaches | internal/identity/store.go:152-165 | every store a run reaches satisfies the invariant, whatever the clock does and however handlers interleave |
| Machine.AnyStepSound | internal/identity/store.go:152-165 | every transaction, committed or rolled back, keeps the invariant and evolves old records as allowed |
| Cascades.EndAppsUnion | internal/identity/sessions.go:165-208 | ending app sessions group by group, in any order, is ending them together |
| Cascades.EndRowsUnion | internal/identity/sessions.go:136-164 | ending rows with everything they take along does not depend on grouping or order |
| Cascades.EndSessionsUnion | internal/identity/sessions.go:136-164 | ending logical sessions group by group is ending them together |
| Cascades.RevokeUnion | internal/identity/file_store.go:371-410 | revoking families and tokens group by group is revoking them together |
| Store.FileState.EndAppSession | internal/identity/sessions.go:165-208 | the new state is the closed form for one app session: ended, its online tokens and the codes and requests of its session and client flagged, and the notices its client's metadata asks for queued to exactly its endpoints, pending or waiting for a page; nothing if it had ended |
| Store.FileState.EndSession | internal/identity/sessions.go:136-164 | for every order of iteration, all live rows of the id end with everything linked to them, in one comprehension per map |
| Store.FileState.PruneSessions | internal/identity/file_store.go:259-265 | every session past its expiry ends, whatever order they are met in |
| Store.FileState.PruneLogoutState | internal/identity/sessions.go:209-237 | expired sessions end, then everything older than the retention goes, from five maps at once |
| Store.FileState.DeleteUserSessions | internal/identity/file_store.go:236-258 | revocation, deletion of grants and ending of sessions compose to one closed form on the user's records |
| Store.FileState.SaveUser | internal/identity/file_store.go:212-223 | refused exactly on an email conflict; otherwise a purge exactly when password, email, role or activity changed, then the record |
| Store.FileState.DeleteUser | internal/identity/file_store.go:224-228 | record and entitlements go, and the purge follows |
| Store.FileState.SaveClient | internal/identity/file_store.go:281-292 | an existing client is purged and its revision moved past the old one; a new one is only stored |
| Store.FileState.DeleteClient | internal/identity/file_store.go:293-298 | policy, grants and record go, in that order |
| Store.FileState.InvalidateClientGrants | internal/identity/file_store.go:299-321 | the client's app sessions end, its credentials are revoked, its codes, requests and consents go |
| Store.FileState.RevokeAccessTokensForUser | internal/identity/file_store.go:371-383 | exactly the user's families, their tokens and the user's tokens are revoked |
| Store.FileState.RevokeAccessTokensForClient | internal/identity/file_store.go:384-396 | exactly the client's families, their tokens and the client's tokens are revoked |
| Store.FileState.RevokeAccessTokensForCode | internal/identity/file_store.go:397-410 | exactly the code's families, their tokens and the code's tokens are revoked |
| Store.FileState.RevokeRefreshFamily | internal/identity/oauth_store.go:66-79 | a stored family and exactly its tokens are revoked; an unknown one changes nothing |
| Store.FileState.SaveConsent | internal/identity/file_store.go:418-438 | a revoked consent first ends the app sessions and revokes the families of its user and client |
| Store.FileState.SaveOAuthPolicy | internal/identity/oauth_store.go:6-12 | the policy is stored and the client's grants invalidated |
| Store.FileState.SaveOAuthAccess | internal/identity/oauth_store.go:14-25 | the entitlement is stored, the user's app sessions end and credentials are revoked |
| Store.FileState.PruneOIDCState | internal/identity/file_store.go:444-471 | exactly the families past retention with their refresh tokens, expired requests and tokens, and codes past both deadlines go |
| Purges.PurgeUserSound | internal/identity/file_store.go:236-258 | leaves no live session or app session, no code, request or consent, and no unrevoked family or token of the user |
| Purges.PurgeClientSound | internal/identity/file_store.go:299-321 | leaves no code, request or consent, no live app session and no unrevoked credential of the client |
| Purges.DeleteUserSound | internal/identity/file_store.go:224-228 | deleting an account leaves nothing of it usable |
| Purges.SaveUserSound | internal/identity/file_store.go:212-223 | saving an account is sound: every security-relevant change purged it first |
| Purges.SaveClientSound | internal/identity/file_store.go:281-292 | saving a client is sound |
| Purges.SavePolicySound | internal/identity/oauth_store.go:6-12 | saving a policy is sound |
| Purges.SaveAccessSound | internal/identity/oauth_store.go:14-25 | saving an entitlement is sound and leaves the user no unrevoked credential |
| Purges.SaveConsentSound | internal/identity/file_store.go:418-438 | saving a consent at the client's current revision is sound |
| Changes.PruneSound | internal/identity/file_store.go:444-471 | pruning at any time is sound: no token outlives its code, no token its family |
| Changes.DropStaleSound | internal/identity/sessions.go:211-237 | retention is sound: an ended app session goes together with its notices |
| Changes.RotationSound | internal/oidc/refresh.go:110-116 | a rotation keeps the chain |
| Changes.FamilySound | internal/oidc/refresh.go:31-43 | a family starts with its one token |
| Flags.EndRowsSound | internal/identity/sessions.go:136-164 | ending rows leaves nothing linked to a dead session unflagged |
| Flags.EndAppsSound | internal/identity/sessions.go:165-208 | ending app sessions leaves no unflagged token, code or request linked to one |
| Flags.RevokeSound | internal/identity/oauth_store.go:66-79 | revocation leaves no unrevoked token of a revoked family |
| Accounts.LoginSound | internal/identity/service.go:149-199 | a sign-in keeps the invariant: it sweeps before it reuses a session identifier |
| Accounts.AdminStays | internal/identity/service.go:309-319 | the guard on the last administrator suffices |
| Accounts.UpdateUserSound | internal/identity/service.go:320-358 | updating an account keeps the invariant |
| Accounts.DeleteUserStepSound | internal/identity/service.go:359-374 | deleting an account keeps the invariant |
| Accounts.ChangePasswordSound | internal/identity/service.go:418-461 | changing a password keeps the invariant |
| Clients.SaveClientStepSound | internal/identity/clients.go:137-185 | creating or updating a client keeps the invariant |
| Clients.SetPolicySound | internal/identity/oauth.go:109-158 | setting a policy keeps the invariant |
| Clients.SetAccessSound | internal/identity/oauth.go:174-194 | setting entitlements keeps the invariant |
| Logouts.EndSessionsStepSound | internal/identity/sessions.go:403-556 | ending sessions from the session pages keeps the invariant |
| Logouts.SignedOutEverywhere | internal/identity/sessions.go:464-502 | signing out everywhere leaves no live session or association, and with offline access no usable credential |
| Logouts.OthersSignedOut | internal/identity/sessions.go:464-469 | signing out the other sessions leaves at most the present one |
| Logouts.ConfirmLogoutSound | internal/oidc/logout.go:255-266 | confirming a browser logout keeps the invariant |
| Logouts.RenderLogoutSound | internal/oidc/logout.go:291-317 | rendering front-channel frames keeps the outbox |
| Authorization.AuthorizeSound | internal/oidc/authorize.go:224-259 | starting a request with a client record read earlier keeps the invariant |
| Authorization.MintNoneSound | internal/oidc/interaction.go:215-276 | the silent step keeps the invariant |
| Authorization.CompleteSound | internal/oidc/interaction.go:98-178 | answering a request keeps the invariant: the revision pin carries the client's right to codes |
| Authorization.Filtered | internal/oidc/authorize.go:137-142 | exactly the supported scopes among those requested |
| Authorization.Approved | internal/oidc/interaction.go:155-161 | openid, and otherwise exactly the scopes both requested and approved |
| TokenEndpoint.ExchangeSound | internal/oidc/token.go:73-157 | the exchange transaction keeps the invariant, from presentation to pruning |
| TokenEndpoint.RefreshStepSound | internal/oidc/refresh.go:53-118 | the refresh transaction keeps the invariant |
| TokenEndpoint.IssueResourceSound | internal/oidc/oauth.go:325-355 | the resource grants keep the invariant |
| TokenEndpoint.RevokeStepSound | internal/oidc/oauth.go:94-147 | the revocation endpoint keeps the invariant (section 2.1 of RFC 7009) |
| TokenEndpoint.LinkedUser | internal/oidc/token.go:110-117 | the live app session a code joins belongs to the session's user |
| Deliveries.AcquireSound | internal/oidc/logout_delivery.go:64-103 | taking a lease keeps the invariant and the pace |
| Deliveries.RecordSound | internal/oidc/logout_delivery.go:108-145 | recording a result keeps the invariant and the pace |
| IdentityService.Service.Bootstrap | internal/identity/service.go:111-123 | commits into a store without accounts, which then holds exactly one active administrator; otherwise nothing changes |
| IdentityService.Service.CreateUser | internal/identity/service.go:284-308 | commits for a signed-in administrator only, adding one active account and changing no other; a taken email changes nothing |
| IdentityService.Service.UpdateUser | internal/identity/service.go:320-358 | commits the update step: the account keeps its password, and if anything changed it is signed out and nothing issued for it is usable; when the email is taken the purge is rolled back |
| IdentityService.Service.DeleteUser | internal/identity/service.go:359-374 | commits the deletion unless the account is the last administrator; nothing of the account is usable or signed in afterwards |
| IdentityService.Service.UpdateProfile | internal/identity/service.go:375-417 | commits the signed-in account's own change or nothing; a new email signs it out everywhere |
| IdentityService.Service.ChangePassword | internal/identity/service.go:418-461 | commits only if the password checked before the transaction is still current; the account is then signed out and nothing issued for it is usable |
| IdentityService.Service.Login | internal/identity/service.go:149-199 | commits the sign-in step; stale credentials or a full store leave the state as found, sweep included |
| IdentityService.Service.Logout | internal/identity/service.go:200-208 | afterwards the credential is signed out and exactly its session has ended; an unknown or ended one changes nothing |
| IdentityService.Service.ObserveSession | internal/identity/sessions.go:558-573 | marks a live credential seen on its device, which changes for nobody who is signed in and until when; an ended one is not found |
| IdentityService.Service.SaveClient | internal/identity/clients.go:137-185 | the client has the new metadata and a secret exactly if that needs one, the old one if there was one; nothing issued to it before is usable |
| IdentityService.Service.RotateSecret | internal/identity/clients.go:198-222 | the client has the new secret and its old metadata, and nothing issued under the old secret is usable; refused if it uses none |
| IdentityService.Service.DeleteClient | internal/identity/clients.go:186-197 | the client, its policy and everything usable issued to it are gone; an unknown one is not found |
| IdentityService.Service.RegisterClient | internal/identity/registration.go:278-324 | commits exactly one new client with a secret exactly if its metadata needs one, refusing an identifier in use; initial access tokens are left out |
| IdentityService.Service.SetOAuthPolicy | internal/identity/oauth.go:109-158 | commits exactly the policies the validation accepts for the registered metadata; nothing issued to the client before is usable |
| IdentityService.Service.SetOAuthAccess | internal/identity/oauth.go:174-194 | commits exactly the entitlements the validation accepts; no token or family of the account is usable afterwards |
| IdentityService.Service.EndSessions | internal/identity/sessions.go:403-556 | commits the step of its target with the password checked again, and records the operation; for one session or app session, that one is over and every other is as it was |
| IdentityService.Service.RevokeActivity | internal/identity/monitor.go:298-403 | decides by the same status as the view; the loops over codes and tokens end in the closed form for every order |
| IdentityService.Service.SweepSessions | internal/identity/sessions.go:574-576 | commits the sweep |
| OidcService.Protocol.Authorize | internal/oidc/authorize.go:224-259 | commits an open request for exactly the redirect URI, challenge, demands and supported scopes asked for, bound to an account only if no sign-in is needed; or refuses without a trace |
| OidcService.Protocol.MintNone | internal/oidc/interaction.go:215-276 | commits a code for the account of a session that is live and fresh enough now, under a consent that covers it now |
| OidcService.Protocol.Complete | internal/oidc/interaction.go:98-178 | commits exactly if the request may be answered by this session; an approval issues its code and stores its consent, a refusal uses the request up; when the code cannot be issued the consent is rolled back with it |
| OidcService.Protocol.Exchange | internal/oidc/token.go:73-157 | a first presentation commits exactly if the code can be redeemed, and stores everything it grants; a replay commits the revocation; a refused refresh family rolls the association back |
| OidcService.Protocol.RefreshToken | internal/oidc/refresh.go:46-129 | an unused token commits exactly if it can be renewed, and stores the rotation for the scopes asked for; a used one commits the revocation of its family |
| OidcService.Protocol.IssueResourceToken | internal/oidc/oauth.go:270-361 | commits a token for what was asked, or the default, within the policy and, for a password, within the account's entitlements and only if the password checked before is still the account's |
| OidcService.Protocol.Revoke | internal/oidc/oauth.go:94-147 | afterwards the client's own token or family is revoked; a foreign or unknown credential changes nothing and is reported as success |
| OidcService.Protocol.PrepareLogout | internal/oidc/logout.go:79-107 | commits the interaction after a sweep, and there are never more than 10000; a full store rolls the sweep back |
| OidcService.Protocol.BindLogout | internal/oidc/logout.go:225-235 | writes back exactly a copy read unbound and not completed, bound to the session signed in and otherwise as read |
| OidcService.Protocol.CancelLogout | internal/oidc/logout.go:242-245 | afterwards no confirmation commits at this or any later reading of the clock |
| OidcService.Protocol.ConfirmLogout | internal/oidc/logout.go:255-266 | commits only on an open interaction; it is then completed, the bound session is over, and no other session changes |
| OidcService.Protocol.RenderLogout | internal/oidc/logout.go:291-317 | the loop gives every delivery its own transition, in any order; a page rendered again gets none |
| Logouts.FramesExactly | internal/oidc/logout.go:291-317 | a page gets exactly the interaction's waiting front-channel notices that can be framed and whose client has not moved; those whose client has are failed; no other notice changes |
| Logouts.RenderedOnce | internal/oidc/logout.go:291-317 | rendering again, even later, changes nothing |
| OidcService.Protocol.AcquireLease | internal/oidc/logout_delivery.go:64-103 | the loop over the sorted deliveries is the pass, and the job is the one it leased |
| OidcService.Protocol.RecordResult | internal/oidc/logout_delivery.go:108-145 | changes the delivery exactly when the lease still holds it, and no other; afterwards the lease does not hold it |
| Effects.PurgeClientSpares | internal/identity/file_store.go:299-321 | changing one client leaves every other client's tokens, families, codes, consents, requests and app sessions, and every browser session, as they were |
| Effects.PurgeUserSpares | internal/identity/file_store.go:236-258 | a security change to one account leaves everyone else's tokens, families, codes, consents, sessions and app sessions as they were |
| Purges.SavedClient | internal/identity/file_store.go:281-292 | a new client record takes effect at a later revision, other clients keep theirs, and nothing issued under the old one is usable |
| Purges.SavedPolicy | internal/identity/oauth_store.go:6-12 | a new policy takes effect for its client alone, and nothing issued under the old one is usable |
| Purges.SavedAccess | internal/identity/oauth_store.go:14-25 | new entitlements take effect, the account's app sessions end and its credentials are revoked, and nobody else's change |
| Purges.DeletedClient | internal/identity/file_store.go:293-298 | a deleted client leaves no record, no policy and nothing usable |
| Purges.SavedUser | internal/identity/file_store.go:212-223 | an account is saved exactly if its email is free, and if that changed what its credentials rest on none of them is usable and no session of it is live |
| Effects.LoginSignsIn | internal/identity/service.go:171-198 | a sign-in leaves one live credential of the checked account, none under the old one, and keeps a session identifier only of the same account and while it was live; the browser is signed in exactly until the session's lifetime is over |
| Effects.LoginCommits | internal/identity/service.go:149-176 | a password is accepted if and only if it was checked against what the active account still has, and there is room after the sweep |
| Effects.LoginSpares | internal/identity/service.go:171-198 | a sign-in leaves every other browser's unexpired session as it was |
| Effects.ConfirmEnds | internal/oidc/logout.go:255-266 | a confirmed browser logout ends exactly the bound session and cannot be confirmed again at once |
| Interactions.BindingReopens | internal/oidc/logout.go:225-235 | confirming once is not final: a handler that read the interaction unbound and open binds its copy after the confirmation, and it can be confirmed again |
| Interactions.ReopenStep | internal/oidc/logout.go:225-266 | a confirmed, cancelled or expired interaction opens at a step if and only if the step binds a copy read unbound and not completed that has not expired |
| Interactions.ClosedUnlessRebound | internal/oidc/logout.go:208-266 | one that is open again later in a run was bound by a step in between from a copy stored before it was closed |
| OpenRequests.EndedThenStarted | internal/oidc/authorize.go:178-259 | ending the session between the look at it and the write leaves an unrevoked request bound to the ended session |
| OpenRequests.StaleStep | internal/oidc/authorize.go:224-259 | a step breaks "every request bound to an ended session is revoked" if and only if it stores a request from a row read before the session ended |
| OpenRequests.NoOpenRequest | internal/identity/sessions.go:136-164 | at every moment of a run up to a given one an ended session has no open request, if and only if no step before stored one from a row read before it ended |
| OpenRequests.StaleAnswered | internal/oidc/interaction.go:98-178 | such a request can be approved from another live session of the same account, and the code is bound to that session |
| Effects.RevokedForGood | internal/oidc/oauth.go:94-117 | a client's revocation of its own access token is final in every run (section 2.1 of RFC 7009) |
| Effects.PresentedRevoked | internal/oidc/oauth.go:94-141 | the revocation endpoint revokes the client's own token and nothing else, or its own refresh token's family with that family's tokens and nothing else |
| Effects.ForeignRevocation | internal/oidc/oauth.go:109-141 | a credential of another client is left alone |
| Failures.LateAnswer | internal/oidc/logout_delivery.go:76-139 | failing is not final: a pass that gives a notice up (window or changed endpoint) leaves its lease, and a late answer under it acknowledges it, fails it again or makes it pending |
| Failures.FailureEnds | internal/oidc/logout_delivery.go:76-139 | a stored failed notice stops being failed at a step if and only if the step records an answer that is not a permanent failure under the lease it still carries, or an administrator's retry commits |
| Failures.RevivedBetween | internal/oidc/logout_delivery.go:76-139 | in every run, a notice that failed and is not failed later was revived by such a step in between |
| Failures.FailedForGood | internal/oidc/logout_delivery.go:124-128 | in every run, a failed notice without a lease is unchanged until retention deletes it or an administrator retries it |
| Limiter.ClientAuthLimiter.IsAvailable | internal/oidc/clientauth.go:143-148 | the answer is that of the model |
| KeyStore.ProvisionGood | internal/oidc/keystore.go:129-171 | wherever Provision stops, every listed key has a complete directory, exactly the active one is unretired, and no key is lost |
| KeyStore.RotateGood | internal/oidc/keystore.go:217-251 | wherever Rotate stops, the same holds: the old keys stay listed and retired |
| KeyStore.ProvisionReuses | internal/oidc/keystore.go:122-160 | Provision generates nothing when a key is active or a complete directory waits, and leaves a key active when it finishes |
| KeyStore.LoadPublishes | internal/oidc/keystore.go:177-213 | a load publishes exactly the manifest's keys, and fails only without an active key or when it expired |
| KeyStore.EverActivePublished | internal/oidc/keystore.go:177-292 | after any crashes, a successful load publishes every key that was ever active |
| KeyStore.SigningKeys.StageAndCommitKey | internal/oidc/keystore.go:493-523 | after each number of file operations, the disk holds exactly that much of the new key |
| KeyStore.SigningKeys.Provision | internal/oidc/keystore.go:129-171 | the disk is that of the interrupted operation; when it finishes, the old, the found or the new key is active |
| KeyStore.SigningKeys.Rotate | internal/oidc/keystore.go:217-251 | the disk is that of the interrupted operation; keys are loaded only when all succeeded |
| KeyStore.SigningKeys.Load | internal/oidc/keystore.go:177-213 | the loaded keys, unchanged on failure |
| KeyStore.SigningKeys.LoadRetired | internal/oidc/keystore.go:193-204 | every listed key but the active one, or failure if one is incomplete |
| KeyStore.SigningKeys.PublicJwks | internal/oidc/keystore.go:279-292 | the published set is the active key and the retired ones |
| Limiter.WindowBound | internal/oidc/clientauth.go:118-140 | any half-open interval one window long admits at most twice the limit less one for a key |
| Limiter.BoundMet | internal/oidc/clientauth.go:118-140 | the bound is met for every limit and every window longer than one nanosecond |
| Limiter.EntriesBound | internal/oidc/clientauth.go:129-131 | the map never holds more than 10000 entries |
| Limiter.AvailableExactly | internal/oidc/clientauth.go:143-148 | a bucket is available exactly when a failure can still be counted against it |
| Limiter.ClientAuthLimiter.TakeCall | internal/oidc/clientauth.go:118-140 | admitted exactly below the limit and capacity, with the window started by its first call |
| Limiter.ClientAuthLimiter.DropExpired | internal/oidc/clientauth.go:122-126 | exactly the unexpired entries remain |

## Left out

- PostgreSQL and MongoDB backends: only the file store is modelled, and it differs from them in when a client's old endpoints are read.
- HTTP, cookies, CORS, HTML, DNS, the CLI, configuration loading and the user interface.
- Cryptography: hashes, tokens and key pairs are identifiers, PKCE is equality with the stored challenge, and signing cannot fail.
- Syntax of URLs, mail addresses, client metadata and scopes: metadata is a record with the audits' results, and limits on a scope's own characters are not checked.
- Several readings of the clock inside one transaction: a transaction has one `now`; readings taken before it are separate.
- IdentityService.Service.RegisterClient: does not check initial access tokens nor issue registration access tokens, which allows more runs than the code.
- The policy that permits offline access at the authorization endpoint is read in a transaction of its own; the model accepts either answer there and checks it again when the family starts.
- What an event carries besides the client record, the session row and the interaction it read is arbitrary (`Machine.Possible`), which allows more runs than the code.
- Display fields of records, profile claims, listing, search and pagination.
- The first look at the policy in `issueResourceToken`, in a transaction of its own: it can only refuse earlier than the one modelled.
- Eviction of the oldest logout operation at 10000 records.
- The front-channel page's address check is a set of framable endpoints; logout hints are not part of this model.
- Key files and the manifest survive a crash of the process as written; lost writes of the disk itself are not modelled.
- `Sign` and the certificate's validity at signing.
- Go's in-place update of a record through a map is a reassignment of the map field with the new record.
- Aliasing: the store clones records on the way in and out, so records are values.
