# Verified models of dex and the NGINX ingress controller

The repository vendors two services with real state: **dex**, an OpenID Connect provider, and
the **NGINX ingress controller**. These Dafny modules model the parts of both where several
storage calls, servers or files must agree, and prove what they keep.

`dafny verify dfyconfig.toml` checks everything.

| modules | what they model |
|---|---|
| `KeyRotation`, `KeyProtocol`, `KeyWitnesses`, `TokenCoverage` | signing-key rotation by several server instances, each with a key cache, over one store, and the ID tokens they sign |
| `Scopes`, `Storage`, `IDTokens`, `TokenProtocol`, `TokenOnce`, `TokenLinks`, `TokenValues`, `TokenGrants`, `TokenTheorems`, `TokenSlots`, `TokenOrphans`, `TokenRace` | authorization codes, refresh tokens and offline sessions when handlers interleave storage call by storage call |
| `Handlers`, `SerialRuns`, `GarbageCollection`, `Replies`, `Uninterrupted`, `Approvals`, `LoginFlow` | the same handlers run one at a time, what they answer, garbage collection, and the link between the two views |
| `EtcdStore` | the etcd backend: conditional writes on revisions against a plain map |
| `Ingresses`, `MinionMerge`, `NginxConfig`, `MergedConfig`, `PlusEndpoints` | from ingress resources to NGINX configuration, and endpoint updates by API or reload |
| `StaticOverlay`, `Migrations` | read-only static entries over a backing store; SQL schema migrations |

## How the models are built

Concurrent code is a state machine. `Apply(s, a)` takes one atomic step and leaves the state
alone when the step is not enabled; `Run` folds a list of actions. A theorem about
`Run(INIT, actions)` for every `actions` is therefore a theorem about every interleaving.
Code that changes objects in place is a class or a method with loops, proved equal to a
function on its contents; the lemmas are about that function. `Uninterrupted` and `Approvals`
prove that an exchange, refresh, revocation or approval thread of the token machine that nobody
interrupts does exactly what the serial handler does.

Environment and inputs: the clock, random identifiers (`storage.NewID`, taken to be always
new), connectors, signing keys and request fields are parameters. Times are integers in
nanoseconds. `NewID` values are numbers.

Assumptions that are visible in the contracts:

- **Rotation.** All instances share one configuration and one clock that does not run
  backwards, and the rotation frequency F is positive. `signDelay` (d) bounds the time between
  reading keys and stamping a token, `commitDelay` (c) the time between an updater's first
  clock reading and its commit. The in-memory store holds its lock during an update, which gives
  c = 0. The comment in `dex/server/rotation.go` promises that a key stays published until the
  tokens it signed expire. Let V be the validity of ID tokens. A demoted key is dropped only by a
  rotation, which comes no earlier than F later, so it outlives its own expiry by
  max(0, F - V - 1). `KeysOutliveTokensIff` proves that the promise holds in every run exactly
  when c + d is no more than that; otherwise a key is sure to be published only until
  exp - (c + d) + max(0, F - V - 1), and `CoverageIsTight` shows that no later time would do.
- **Offline sessions.** The in-memory `GetOfflineSessions` returns a record whose map is the live
  one. Sessions are never deleted by these handlers, so one atomic read covers both the live and
  the copied map.
- **Configurator.** Upstream names and file names are plain concatenations, so that they are
  distinct is a precondition (`UpstreamNamesCollide` shows an ingress whose second host is sent
  to the first host's backend). Endpoints are
  written as "address:port"; `RenderedIffOneColon` shows exactly which survive.

Where the code does something a reader may not expect, the model follows the code:

- `handleAuthCode` answers an expired code or another client's code with a server error, and only
  an unknown one with an invalid request. So a sweep of the garbage collector changes the kind of
  the error for codes it took, and likewise for logged-in requests, though never a success
  (`SweepChangesExchangeIff`, `SweepChangesApprovalIff`, `SweepsAreInvisible`).
- In `handleAuthCode` a failure to find the connector is written to the response and the token
  response is still sent; the model counts it as an answer without a refresh token.
- The updater that writes a new reference in `handleAuthCode` does not look at the one it replaces.
  So overlapping exchanges can leave a token stored that no session names, and it stays
  (`RestBijectiveIffNeverOrphans` says exactly when, `LostForGood`).
- etcd runs an updater on an empty value when the key is missing, the in-memory store refuses
  (`BackendsAgreeOnPresentKeys`); and revision zero is not a version (`RevisionZeroCommitsTwice`).
- `getMinionsForMaster` reads the first rule of a candidate before it checks that there is one:
  a candidate without rules stops the controller (the `NoRules` fault).
- A minion that is dropped because it brings a TLS secret has already claimed its paths, so the
  next minion does not get them (`DroppedMinionShadowsPath`).
- The NGINX Plus client compares servers by address only, so the models compare sets of addresses.

## Model

| member | source | states |
|---|---|---|
| `KeyRotation.KeyRecord.Rotate` | dex/server/rotation.go:132-175 | the updater refuses before the recorded time and otherwise leaves the unexpired keys in order, then the demoted key, with the new key signing |
| `KeyRotation.DropExpired` | dex/server/rotation.go:142-154 | the in-place filter leaves exactly the unexpired keys, in order, at the front of the array |
| `KeyRotation.KeyRecord.PublicKeys` | dex/server/handlers.go:109-132 | the key set lists the signing key first and holds exactly the published keys; none without a signing key |
| `KeyRotation.UnexpiredMembers` | dex/server/rotation.go:142-154 | a key survives the filter if and only if it was there and has not expired |
| `KeyRotation.RotationKeepsPace` | dex/server/rotation.go:132-175 | a rotation keeps verification-key expiries at least one period apart, and apart from the next one |
| `KeyRotation.RetainedKeysBound` | dex/server/rotation.go:132-175 | after a rotation at most V/F + 1 verification keys are kept |
| `KeyProtocol.UnexpiredIsCurrent` | dex/server/server.go:397-412 | any record the store ever held whose rotation time lies ahead is the stored one |
| `KeyProtocol.CacheCoherence` | dex/server/server.go:397-412 | in every run, whatever a `GetKeys` call returns was the stored record at a moment during the call |
| `KeyProtocol.CacheMatchesStore` | dex/server/server.go:397-412 | in every run a cached record whose rotation time lies ahead equals the stored one |
| `KeyProtocol.KeyCoverage` | dex/server/oauth2.go:268-303 | in every run a token's signing key is published until exp - (c + d) + max(0, F - V - 1) |
| `KeyProtocol.RotationsArePaced` | dex/server/rotation.go:132-175 | over all instances rotations are at least F apart, and the list stays spaced and bounded by V/F + 1 |
| `KeyProtocol.MaxAgeWithinRotation` | dex/server/handlers.go:138-143 | the announced max-age ends by the next rotation if and only if two minutes were left, and then less than a second before it; otherwise it is two minutes |
| `KeyProtocol.KeySetStaysCurrent` | dex/server/handlers.go:109-147 | a key set fetched two minutes or more before a rotation equals the stored set for its whole lifetime and verifies every token signed since |
| `KeyProtocol.KeySetsAreServedWithinPeriod` | dex/server/rotation.go:170-173 | in every run a key set is handed out no more than one period before the rotation it names, and lasts until less than a second before that, or for two minutes |
| `KeyWitnesses.CoverageIsTight` | dex/server/rotation.go:156-175 | for every configuration a reachable state lacks a token's key right after the time `KeyCoverage` gives, or when the token is signed if that is later |
| `KeyWitnesses.KeysOutliveTokensIff` | dex/server/rotation.go:161-164 | every run keeps every unexpired token's key published if and only if c + d <= max(0, F - V - 1) |
| `KeyWitnesses.LateKeySetGoesStale` | dex/server/handlers.go:138-143 | for every time under two minutes before the rotation, and for every overdue one, some run has a relying party that still holds the set meet a token whose key it lacks |
| `TokenCoverage.IssuedTokensAreCovered` | dex/server/oauth2.go:268-303 | whatever runs before and after, an ID token issued with the keys a `GetKeys` call returned is a token of the key protocol with its own issue and expiry times, and its key stays published until exp - (c + d) + max(0, F - V - 1) |
| `Scopes.ParseIsInjective` | dex/server/oauth2.go:509-514 | scopes as values are the scope texts: parsing is injective and finds the peer of a cross-client scope |
| `Storage.MemStorage.constructor` | dex/storage/memory/memory.go:15-26 | a new store is empty |
| `Storage.MemStorage.CreateAuthRequest` | dex/storage/memory/memory.go:120-129 | adds the request unless its ID is taken, and says which |
| `Storage.MemStorage.CreateAuthCode` | dex/storage/memory/memory.go:98-107 | adds the code unless its ID is taken, and says which |
| `Storage.MemStorage.CreateRefresh` | dex/storage/memory/memory.go:109-118 | adds the refresh token unless its ID is taken, and says which |
| `Storage.MemStorage.CreateOfflineSessions` | dex/storage/memory/memory.go:143-156 | adds the session unless its key is taken, and says which |
| `Storage.MemStorage.DeleteAuthRequest` | dex/storage/memory/memory.go:334-343 | removes exactly the request, or reports it missing |
| `Storage.MemStorage.DeleteAuthCode` | dex/storage/memory/memory.go:323-332 | removes exactly the code, or reports it missing |
| `Storage.MemStorage.DeleteRefresh` | dex/storage/memory/memory.go:312-321 | removes exactly the refresh token, or reports it missing |
| `Storage.MemStorage.UpdateAuthRequest` | dex/storage/memory/memory.go:395-407 | replaces a stored request by what the updater returns; missing or refused changes nothing |
| `Storage.MemStorage.UpdateRefreshToken` | dex/storage/memory/memory.go:424-436 | replaces a stored refresh token by what the updater returns; missing or refused changes nothing |
| `Storage.MemStorage.UpdateOfflineSessions` | dex/storage/memory/memory.go:438-454 | replaces a stored session by what the updater returns; missing or refused changes nothing |
| `Storage.MemStorage.GarbageCollect` | dex/storage/memory/memory.go:69-85 | deleting while iterating leaves exactly the unexpired requests and codes, and counts the rest |
| `IDTokens.NewIDToken` | dex/server/oauth2.go:268-372 | the loop over scopes issues the token of the functional description, which `IssuedTokenDescribes` characterises, or its first error |
| `IDTokens.ApplyScope` | dex/server/oauth2.go:315-346 | one turn of that loop: the claims of the scope, or the peer that does not trust the client |
| `IDTokens.AudienceIsClientAndTrustedPeers` | dex/server/oauth2.go:315-361 | a token is issued if and only if a key exists and every requested peer trusts the client; its audience is exactly the client and those peers, and azp is set exactly when peers were requested |
| `IDTokens.ValidateCrossClientTrust` | dex/server/oauth2.go:516-534 | a client trusts itself, and a stored peer trusts exactly the clients in its list |
| `IDTokens.IssuedTokenDescribes` | dex/server/oauth2.go:268-372 | a token is issued if and only if a key exists and the requested peers trust the client; it is valid for exactly the configured time from now and names user, connector, nonce and access token; email, groups, name and federated claims are present exactly if requested and hold the user's values; otherwise the error is the missing key or the first distrusting peer |
| `TokenTheorems.SessionRefsHaveOwners` | dex/server/handlers.go:780-852 | in every interleaving a session reference names a stored token of its own user, connector and client, or belongs to exactly one exchange that deleted the token and has yet to write its own reference |
| `TokenTheorems.QuiescentRefsAreLive` | dex/server/handlers.go:780-852 | when no handler runs, every reference names a stored token |
| `TokenTheorems.AtMostOnce` | dex/server/handlers.go:703-731 | in every interleaving a request passes its deletion once and a code gives at most one token response, and is gone by then |
| `TokenTheorems.RefreshIsSingleUse` | dex/server/handlers.go:976-1024 | in every interleaving no refresh value is consumed twice and no consumed value is stored again |
| `TokenTheorems.NoRefreshAfterRemoval` | dex/server/handlers.go:1020-1024 | once a refresh token is deleted it stays so, and no later refresh of it succeeds |
| `TokenTheorems.IssuedTokensFollowRequests` | dex/server/handlers.go:899-928 | in every interleaving an ID token sent descends from an accepted and approved request with its client and nonce, no scope beyond it, an audience of the client and the requested peers, all of which trusted it, and azp exactly for those; sent by an approval or for a code it names the user who approved, sent by a refresh the user the connector named, which is that user if and only if the connector named the same |
| `TokenTheorems.RefreshTokensKeepTheirGrant` | dex/server/handlers.go:988-1003 | a stored refresh token keeps client, nonce and scopes of its request and the user who approved it through any number of refreshes |
| `TokenLinks.StepKeepsLinks` | dex/server/handlers.go:756-854 | every storage call of every handler keeps the ownership invariant of references and refresh tokens |
| `TokenOnce.StepKeepsCodes` | dex/server/handlers.go:699-731 | every storage call keeps codes redeemed and answered at most once |
| `TokenValues.StepKeepsValues` | dex/server/handlers.go:976-1024 | every storage call keeps consumed refresh values out of the store |
| `TokenGrants.StepKeepsGrants` | dex/server/handlers.go:565-578 | every storage call keeps codes, refresh tokens and issued tokens within the grant they stem from |
| `Handlers.HandleAuthCode` | dex/server/handlers.go:699-856 | the handler with its undo leaves the store and response of `ExchangeCode`, which `ExchangeReply` and `ExchangeErrors` characterise |
| `Handlers.HandleRefreshToken` | dex/server/handlers.go:859-1027 | the handler leaves the store and response of `RefreshStore`, which `RefreshReply` and `RefreshErrors` characterise, for a connector that answers, cannot refresh, or is missing or fails |
| `Handlers.HandleApproval` | dex/server/handlers.go:491-653 | the approval and its loop over response types leave the store and redirect of `ApproveStore`, which `ApprovalOutcome` characterises |
| `Approvals.ApprovalOutcome` | dex/server/handlers.go:528-653 | an approval that is not possible changes nothing; otherwise the request is gone and it fails exactly if a wanted ID token cannot be issued. Each wanted code (one out of band), on failure each one wanted before the ID token, is new and stands for the request's client, nonce, scopes, user and connector; other codes are as they were; on success the redirect carries the last code and the ID token |
| `Approvals.ApprovalAlone` | dex/server/handlers.go:528-653 | the storage calls of an uninterrupted approval end with the store of `ApproveStore`, and send its ID token exactly when it succeeds with one |
| `LoginFlow.LoginOutcome` | dex/server/handlers.go:459-485 | a request that was opened, sent to a connector and logged in is stored with that connector and identity and otherwise as opened; nothing else changes |
| `LoginFlow.LoginAlone` | dex/server/handlers.go:459-485 | the three storage calls of a login that nobody interrupts leave the same store |
| `LoginFlow.RedirectStandsFor` | dex/server/handlers.go:528-653 | the code in a redirect is stored and stands for the request, and the ID token in it says what the request asked for |
| `LoginFlow.LoginToTokens` | dex/server/handlers.go:459-856 | whatever is stored besides, redeeming the code of a login in time succeeds, and its ID token and refresh token are for the identity that logged in at the chosen connector, with the client, scopes and nonce of the request |
| `Handlers.RevokeRefresh` | dex/server/api.go:294-343 | unlinks and deletes as `RevokeStore` says, with its three outcomes |
| `Handlers.ListRefresh` | dex/server/api.go:258-292 | lists exactly the references of the session, once each |
| `SerialRuns.OneTokenPerSlot` | dex/server/handlers.go:780-852 | in a bijective store a user has at most one refresh token for a connector and client |
| `SerialRuns.AddRefreshKeepsBijection` | dex/server/handlers.go:756-854 | storing, replacing and linking keeps the bijection and fails only on a taken ID: replacing the old token never fails |
| `SerialRuns.ExchangeKeepsBijection` | dex/server/handlers.go:699-856 | an exchange keeps the bijection and succeeds if and only if the code may be redeemed |
| `SerialRuns.RefreshKeepsBijection` | dex/server/handlers.go:859-1027 | a refresh keeps the bijection and succeeds if and only if its value is current and the client's own, its scopes were granted, the connector does not fail and the ID token can be issued |
| `SerialRuns.RevokeKeepsBijection` | dex/server/api.go:294-343 | a revocation keeps the bijection, finds a token exactly when the slot has one and removes that token only, leaving all else as it was |
| `SerialRuns.ListedRefsAreLiveTokens` | dex/server/api.go:258-292 | the listed references are exactly the user's live refresh tokens |
| `Replies.ExchangeReply` | dex/server/handlers.go:699-856 | a successful exchange uses up its code only, and its ID token says what the code grants. It answers with a refresh token if and only if the connector can refresh and offline access was asked for; that is then stored with the value sent, carries the code's claims, connector data, scopes and nonce, is named by the slot of user, connector and client and replaces only that slot's old token |
| `Replies.ExchangedTokenRefreshes` | dex/server/handlers.go:855-856 | the refresh token of an exchange can be used by its client for any of the code's scopes, whenever the connector answers and a token can be issued |
| `Replies.ExchangeErrors` | dex/server/handlers.go:703-731 | an exchange is an invalid request exactly for an unknown code, or its own unexpired code with another redirect URI, and a server error exactly for an expired or foreign code or a token that cannot be issued; neither changes the store |
| `Replies.RefreshReply` | dex/server/handlers.go:937-1026 | a successful refresh sends exactly the value it stored under the same ID; the stored token has the connector's claims and data, the old user and grant, and nothing else changes but the time in its reference; the ID token has the requested scopes, or all granted ones, and the connector's claims |
| `Replies.NextRefreshNeedsTheReply` | dex/server/handlers.go:893-897 | the client's next refresh succeeds if and only if it presents the value of the last reply; any other is an invalid request |
| `Replies.UsedValueIsRefused` | dex/server/handlers.go:893-897 | the value just used is refused whoever presents it, and the store stays as it is |
| `Replies.RefreshErrors` | dex/server/handlers.go:879-964 | a refresh is an invalid request exactly if it presents no current value of its client or asks for scopes not granted, and a server error exactly if the connector fails or no token can be issued; neither changes the store |
| `Replies.TokenStays` | dex/server/handlers.go:756-1027 | through every serial run a refresh token stays stored as it is until its value is presented, a code of its slot is redeemed or its slot is revoked |
| `Replies.HandedOutValuesStayGood` | dex/server/handlers.go:1026-1027 | a client is never locked out: whatever serial run follows a reply, its refresh token is accepted until one of these happens |
| `GarbageCollection.SerialRunsStayBijective` | dex/server/handlers.go:756-854 | after every serial run of all handlers and sweeps, tokens and references are in bijection |
| `GarbageCollection.StepsAgree` | dex/storage/memory/memory.go:69-85 | from any two stores equal up to expired entries, any handler keeps them so and succeeds alike in both |
| `GarbageCollection.SweepsAreInvisible` | dex/storage/memory/memory.go:69-85 | for every timed run, removing all sweeps leaves the list of successful responses unchanged |
| `GarbageCollection.SweepChangesExchangeIff` | dex/server/handlers.go:703-712 | a sweep leaves the reply to an exchange as it was if and only if it did not take the code; otherwise a server error becomes an invalid request |
| `GarbageCollection.SweepChangesApprovalIff` | dex/server/handlers.go:491-542 | a sweep leaves the reply to an approval as it was if and only if it did not take a logged-in request; otherwise a session error becomes a server error |
| `GarbageCollection.SweepNeverChangesRefreshes` | dex/storage/memory/memory.go:69-85 | no sweep changes the reply to a refresh or a revocation |
| `Uninterrupted.ExchangeAlone` | dex/server/handlers.go:699-856 | from any state, the storage calls of an uninterrupted exchange end with the store of `ExchangeCode`, and answer exactly when it succeeds |
| `Uninterrupted.RefreshAlone` | dex/server/handlers.go:859-1027 | the storage calls of an uninterrupted refresh end with the store of `RefreshStore`, and consume the value exactly when it succeeds |
| `Uninterrupted.RevokeAlone` | dex/server/api.go:294-343 | the storage calls of an uninterrupted revocation end with the store of `RevokeStore` |
| `TokenSlots.StepKeepsSlots` | dex/server/handlers.go:756-854 | every storage call keeps what each slot's tokens and reference must be, given the one exchange or revocation at work on it |
| `TokenOrphans.AccountedIffNotOverwritten` | dex/server/handlers.go:842-852 | while every stored token is named or in the hand of its exchange or a revocation, a storage call keeps it so if and only if it does not write a reference over one whose token is stored |
| `TokenOrphans.LostForGood` | dex/server/handlers.go:842-852 | a token that nothing names or holds any more stays stored and unnamed whatever runs later |
| `TokenOrphans.SettledIffNeverOrphans` | dex/server/handlers.go:756-854 | in every run a slot that nobody is working on has a reference exactly for its token if and only if no call wrote over a reference whose token was stored and about to be deleted by nobody |
| `TokenOrphans.RestBijectiveIffAccounted` | dex/server/handlers.go:756-854 | at rest, tokens and references are in bijection if and only if every stored token is named or in hand |
| `TokenOrphans.RestBijectiveIffNeverOrphans` | dex/server/handlers.go:756-854 | every run that comes to rest ends in bijection if and only if it never wrote over such a reference, on any slot |
| `TokenOrphans.NeverOverwritingEndsBijective` | dex/server/handlers.go:842-852 | every run that never writes over a reference to a stored token ends in bijection, whatever overlaps |
| `TokenOrphans.ExclusiveNeverOverwrites` | dex/server/handlers.go:780-852 | an exchange that is alone on its slot never writes over a reference to a stored token |
| `TokenOrphans.IdleSlotsAreSettled` | dex/server/handlers.go:756-854 | it is enough that no two exchanges past storing their token, or revocations, overlap on one slot: then a slot that none is working on has a reference exactly for its token, and at most one token |
| `TokenOrphans.ExclusiveRunsEndBijective` | dex/server/api.go:294-343 | when such a run comes to rest, all tokens and references are in bijection |
| `TokenRace.RaceLeavesUnnamedToken` | dex/server/handlers.go:780-852 | whenever a session has no reference for a client, two redeemable codes for it have an interleaving in which both exchanges answer and the first token stays stored but unnamed |
| `TokenRace.OverlapsBreakBijection` | dex/server/handlers.go:780-852 | some run from the empty store, which writes over a reference to a stored token, comes to rest with tokens and references not in bijection |
| `TokenRace.ExclusionIsNotNeeded` | dex/server/handlers.go:786-829 | some run in which two exchanges overlap on one slot still ends in bijection: the one that fails to create the session undoes its token |
| `EtcdStore.ReplaysOnPlainMap` | dex/storage/etcd/etcd.go:479-527 | for any clients and interleaving, the stored values equal replaying the effects in commit order on a plain map, with the replies that map gives; `RepliesFollowTheWrites` says what those are |
| `EtcdStore.RepliesFollowTheWrites` | dex/storage/etcd/etcd.go:427-527 | in every run, from the log of effects alone: a create is done if and only if its key was never written or deleted last and otherwise already exists, a delete the other way round, a get finds exactly what the last write left, an update applies its function to that or is refused by it; and the server holds what the last writes left |
| `EtcdStore.OneCreateBetweenDeletes` | dex/storage/etcd/etcd.go:479-496 | between any two successful creates of a key a delete of it succeeded |
| `EtcdStore.EffectsRespectTime` | dex/storage/etcd/etcd.go:427-527 | each call takes effect once, while it runs, and calls that do not overlap take effect in their order |
| `EtcdStore.OneCommitPerRevision` | dex/storage/etcd/etcd.go:498-527 | of the updates that read the same non-zero revision of a key at most one commits |
| `EtcdStore.ConflictsHaveCauses` | dex/storage/etcd/etcd.go:498-527 | a conflict has a write of that key since the read, and a committed update of a stored value has none |
| `EtcdStore.RevisionZeroCommitsTwice` | dex/storage/etcd/etcd.go:498-527 | two updates that both found a key missing may both commit around a delete |
| `EtcdStore.BackendsAgreeOnPresentKeys` | dex/storage/memory/memory.go:424-436 | memory and etcd updates agree if and only if the key is present, and leave the same values if and only if it is present or the updater refuses an empty value |
| `EtcdStore.Conn.GetKey` | dex/storage/etcd/etcd.go:438-447 | finds the stored value, or nothing |
| `EtcdStore.Conn.DeleteKey` | dex/storage/etcd/etcd.go:427-436 | removes exactly the key, or reports it missing |
| `EtcdStore.Conn.TxnCreate` | dex/storage/etcd/etcd.go:479-496 | adds the value unless the key is present, and says which |
| `EtcdStore.Conn.TxnUpdate` | dex/storage/etcd/etcd.go:498-527 | alone, an update stores what its function makes of the current value, or is refused by it, and never conflicts |
| `MinionMerge.ClaimPaths` | kubernetes-ingress/internal/controller/controller.go:1286-1297 | keeps the paths nobody claimed, in order and once, and claims all of the candidate's |
| `MinionMerge.SortByCreationSorts` | kubernetes-ingress/internal/controller/controller.go:1259-1262 | the sorted list is a permutation in order of creation |
| `MinionMerge.GetMinionsForMaster` | kubernetes-ingress/internal/controller/controller.go:1253-1312 | merges some creation order of the listed ingresses, and stops if and only if a candidate has no rules |
| `MinionMerge.CreateMergeable` | kubernetes-ingress/internal/controller/controller.go:1341-1379 | succeeds if and only if the master has one rule, a host and no paths and no candidate lacks rules; empties the master's paths |
| `MinionMerge.PathsGoToTheOldest` | kubernetes-ingress/internal/controller/controller.go:1253-1312 | for any list and tie-breaking, no raw path is held twice, and its holder was created no later than every eligible candidate that declares it |
| `MinionMerge.PathServedIffFirstIsKept` | kubernetes-ingress/internal/controller/controller.go:1286-1308 | a declared path is held by some minion if and only if the host is not empty and its first declarer brings no TLS secret |
| `MinionMerge.UndeclaredPathsAreAbsent` | kubernetes-ingress/internal/controller/controller.go:1286-1308 | a held path is the first path of that name of its first eligible declarer, with that backend |
| `MinionMerge.OtherClassesAreIgnored` | kubernetes-ingress/internal/controller/controller.go:1212-1222 | the merge is the same without the ingresses of other classes: they hold no path and shadow none; ingresses without a class count exactly unless only the class is to be used |
| `MinionMerge.DroppedMinionShadowsPath` | kubernetes-ingress/internal/controller/controller.go:1299-1307 | a dropped older minion keeps a younger one's path from being served |
| `NginxConfig.RenderedIffOneColon` | kubernetes-ingress/internal/nginx/configurator.go:840-850 | splitting and printing an endpoint gives it back if and only if it has one colon |
| `NginxConfig.CreateUpstream` | kubernetes-ingress/internal/nginx/configurator.go:819-857 | the loop builds a server for each endpoint, in order, or keeps the default ones, as `UpstreamHasWanted` spells out |
| `NginxConfig.UpstreamHasWanted` | kubernetes-ingress/internal/nginx/configurator.go:808-857 | on every platform a backend with endpoints that is no unresolved external name has exactly its endpoints as servers, in order; otherwise none on Plus and the one default server elsewhere; with the configured balancing, cookie, queue, parameters and resolving |
| `NginxConfig.PathsReachTheirEndpoints` | kubernetes-ingress/internal/nginx/configurator.go:312-376 | every path of every rule has the location of its place in its rule's server, which reaches exactly those servers of the path's own backend, with its service's settings |
| `NginxConfig.RootReachesDefault` | kubernetes-ingress/internal/nginx/configurator.go:363-376 | a server has one more "/" location, to the default backend, exactly if there is one and no path is the root |
| `NginxConfig.UpstreamsAreTheBackends` | kubernetes-ingress/internal/nginx/configurator.go:312-335 | an upstream is configured exactly for the names of the backends the ingress mentions |
| `NginxConfig.NamesWithoutDashesDiffer` | kubernetes-ingress/internal/nginx/configurator.go:888-890 | backends whose services and ports have no dash never share an upstream name, whatever their hosts |
| `NginxConfig.HealthChecksAreExact` | kubernetes-ingress/internal/nginx/configurator.go:327-331 | exactly the upstreams of probed paths, and of a probed default backend where it is used, are checked when checks are on |
| `NginxConfig.UpstreamMapToSlice` | kubernetes-ingress/internal/nginx/configurator.go:896-914 | lists the map's upstreams once each, in strict order of name |
| `NginxConfig.GenerateServer` | kubernetes-ingress/internal/nginx/configurator.go:252-389 | one location for each path in order, a default "/" when needed, exact health checks, and gRPC-only exactly when every location is |
| `NginxConfig.GenerateNginxCfg` | kubernetes-ingress/internal/nginx/configurator.go:218-405 | generates a server for each rule with paths, and the upstreams its backends need |
| `NginxConfig.GeneratedIsClosed` | kubernetes-ingress/internal/nginx/configurator.go:218-405 | every location's upstream is listed with the same value |
| `NginxConfig.PathsGiveLocations` | kubernetes-ingress/internal/nginx/configurator.go:312-376 | each path gives the location of its place, and a default backend always has a "/" location |
| `NginxConfig.LocationsGoToFirstOfName` | kubernetes-ingress/internal/nginx/configurator.go:312-335 | each location goes to the first backend of the ingress that has its own backend's upstream name |
| `NginxConfig.LocationsGoToTheirBackends` | kubernetes-ingress/internal/nginx/configurator.go:312-335 | with distinct names each location goes to the endpoints of its own path's backend |
| `NginxConfig.HealthChecksAreUsed` | kubernetes-ingress/internal/nginx/configurator.go:315-319 | health checks are for upstreams that the server's locations use |
| `NginxConfig.UpstreamNamesCollide` | kubernetes-ingress/internal/nginx/configurator.go:888-890 | for an ingress with two backends of one name, the second host's location goes to the first host's backend |
| `MergedConfig.GenerateNginxCfgForMergeableIngresses` | kubernetes-ingress/internal/nginx/configurator.go:114-188 | the merged configuration has the master's server with the minions' locations and health checks, and everybody's upstreams |
| `MergedConfig.MergedIsClosed` | kubernetes-ingress/internal/nginx/configurator.go:114-188 | every location of the merged server has its upstream listed with the same value |
| `MergedConfig.LocationsAreTheMinionsPaths` | kubernetes-ingress/internal/nginx/configurator.go:143-176 | the merged server has one location for each path of the minions, in their order, and no other |
| `MergedConfig.MergedLocationsReachTheirBackends` | kubernetes-ingress/internal/nginx/configurator.go:143-176 | path for path in the minions' order, each merged location is marked with its minion and reaches exactly the servers of that minion's own backend, in the master's server |
| `MergedConfig.MergedLocationsAreDistinct` | kubernetes-ingress/internal/nginx/configurator.go:881-886 | from any list of ingresses to the merged server, location paths are distinct if and only if the minions do not hold both the empty path and "/" |
| `MergedConfig.EmptyAndRootPathsCollide` | kubernetes-ingress/internal/nginx/configurator.go:881-886 | a minion with both paths gives two "/" locations |
| `PlusEndpoints.UpdatesReach` | kubernetes-ingress/vendor/github.com/nginxinc/nginx-plus-go-sdk/client/nginx.go:386-440 | adding what is missing and deleting what is not wanted leaves exactly the wanted addresses, for any lists with any repetitions |
| `PlusEndpoints.FindMissing` | kubernetes-ingress/vendor/github.com/nginxinc/nginx-plus-go-sdk/client/nginx.go:411-440 | the nested search keeps exactly the servers absent from the other list |
| `PlusEndpoints.Configurator.UpdateHTTPServers` | kubernetes-ingress/vendor/github.com/nginxinc/nginx-plus-go-sdk/client/nginx.go:383-409 | on success the upstream runs exactly the given addresses; no other upstream changes, failing or not |
| `PlusEndpoints.Configurator.UpdateServers` | kubernetes-ingress/internal/nginx/plus/nginx_api.go:56-86 | the same through the configuration version check |
| `PlusEndpoints.Configurator.UpdatePlusEndpoints` | kubernetes-ingress/internal/nginx/configurator.go:1085-1129 | on success every touched upstream of the ingress runs exactly its endpoints, and only its upstreams changed |
| `PlusEndpoints.ReloadServes` | kubernetes-ingress/internal/nginx/configurator.go:819-857 | on every platform, reloading files that hold the ingress makes every upstream of it run exactly its wanted servers, in order |
| `PlusEndpoints.Configurator.Reload` | kubernetes-ingress/internal/nginx/nginx.go:306-327 | on success NGINX runs what the files say |
| `PlusEndpoints.Configurator.AddOrUpdateIngress` | kubernetes-ingress/internal/nginx/configurator.go:71-85 | on success the ingress's own file holds what is generated for it; no other file changes |
| `PlusEndpoints.Configurator.UpdateEndpoints` | kubernetes-ingress/internal/nginx/configurator.go:1025-1053 | without an error every touched upstream runs exactly its endpoints (the default server without any on open-source NGINX), which is what a reload of the written files would give, whichever branch was taken; files hold the new configuration |
| `PlusEndpoints.Configurator.UpdateEndpointsMergeableIngress` | kubernetes-ingress/internal/nginx/configurator.go:1056-1083 | the same for the minions of mergeable ingresses |
| `StaticOverlay.StepRefines` | dex/storage/static.go:35-82 | each operation of the overlay is that operation on the one map with its static keys read-only |
| `StaticOverlay.RunRefines` | dex/storage/static.go:25-82 | after any run of ID-preserving operations the overlay is still that map, with the same replies and unchanged static entries |
| `StaticOverlay.WritesConcernTheirKey` | dex/storage/static.go:63-82 | a write touches its key only; creates need it absent, deletes and updates present, and an update stores what its function makes of the entry or is refused by it |
| `StaticOverlay.FilteredListsTheView` | dex/storage/static.go:46-61 | filtering and appending lists the map's values once each if and only if the static keys are distinct |
| `StaticOverlay.LowerIsIdempotent` | dex/storage/static.go:115-124 | folding a folded email changes nothing, as looking passwords up through two layers needs |
| `StaticOverlay.LowerIgnoresCase` | dex/storage/static.go:115-124 | two emails are looked up alike exactly if they differ in the case of ASCII letters only |
| `StaticOverlay.Storage.constructor` | dex/storage/static.go:25-33 | fills the map by key, the later of two entries counting |
| `StaticOverlay.Storage.Get` | dex/storage/static.go:35-40 | looks up the one map |
| `StaticOverlay.Storage.Compact` | dex/storage/static.go:51-59 | the in-place filter keeps exactly the dynamic entries, in order |
| `StaticOverlay.Storage.List` | dex/storage/static.go:46-61 | lists the contents once each if and only if static keys are distinct |
| `StaticOverlay.Storage.Write` | dex/storage/static.go:63-82 | creates, deletes and updates act on the contents with static keys read-only |
| `Migrations.AppliedOnceInOrder` | dex/storage/sql/migrate.go:8-61 | in every run of any number of servers each statement is applied once and in order, counts are each server's own, and none finishes early |
| `Migrations.FinishedMeansComplete` | dex/storage/sql/migrate.go:35-38 | when some server has finished, exactly the known statements have been applied |
| `Migrations.AllServersStop` | dex/storage/sql/migrate.go:20-58 | transactions made and left add up to the statements missing plus one for each server, so all stop |
| `Migrations.Conn.ExecTx` | dex/storage/sql/migrate.go:23-49 | one transaction applies and records the next statement, or finds none left, or changes nothing |
| `Migrations.Conn.Migrate` | dex/storage/sql/migrate.go:8-61 | the loop ends whatever others do in between, returns what it applied itself, and without an error all is applied |

## Left out

- HTTP parsing, redirects, templates, logging, metrics, gRPC stubs and start-up: plumbing.
- Cryptography, JWT encoding, bcrypt, protobuf, JSON and base64: keys, signatures and encoded values are abstract, with injective encodings.
- Connectors and SAML: a connector is an arbitrary identity or failure.
- SQL and Kubernetes storage bodies and field-by-field conversions: repetitive and easy.
- `parseAuthorizationRequest` branch by branch: an accepted request is any request; cross-client trust is checked when a token is issued.
- Storage faults other than the modelled errors in the token handlers: a failing step ends its thread.
- Slice sharing of `VerificationKeys` between the in-memory store and a reader during the in-place filter: each stored key record is a value.
- Deletion of offline sessions: no modelled handler does it.
- Informers, the work queue, leader election, status and events of the ingress controller.
- `ParseConfigMap`, annotation parsing and merging, and most of `createConfig`: their results are fields of `Config`.
- TLS and JWT fields of servers and locations, keepalive, and the bookkeeping maps of known ingresses and minions.
- Local mode, in which neither the API nor a reload does anything.
- Handlers.HandleApproval: its caller supplies an identifier for each response type, because random identifiers are inputs here.
- PlusEndpoints.Configurator.UpdateEndpoints: compares sets of addresses, because the client ignores server parameters and order.
- StaticOverlay.LowerIsIdempotent: lower-cases the letters of ASCII only; the other lemmas hold for any idempotent folding.
- StaticOverlay.LowerIgnoresCase: likewise for the letters of ASCII only.
