# Warded: a verified model of its stateful core

Warded puts an identity-aware reverse proxy in front of a local service. This project models the parts of it
that keep state and proves what they keep, for every input, every interleaving and every crash point that the
model can express:

- **Certificate refresh** (`CertProvider`, `CertRuns`, `CertFreshness`). The provider is a class whose methods
  are the lock sections of the source; `CertRuns` interleaves clock readings, checks, starts, fetches and
  publications one at a time.
- **The runtime store** (`Names`, `Store`, `StoreRules`, `StoreSteps`, `StoreNaming`, `StoreSharing`,
  `StoreRecovery`). A disk is a map from directory names to a record file and a temporary file. Each operation exists
  three times: as the method that performs it, as a function of disk and cursor, and (for the saving operations) as its
  sequence of single file-system steps, so that a crash or another save can come between any two.
- **From setup to ward** (`Records`, `RuntimeObject`, `PendingConfig`, `Lifecycle`, `NewService`, `NewCommand`,
  `Activation`, `AnswersSaved`, `Commands`). Each command yields a journal of generated secrets, platform calls and
  store operations. `Lifecycle` says which journals a client is entitled to and what those keep; the service modules
  show that their commands only produce such journals; `AnswersSaved` says what is then on disk, and `Commands`
  closes the loop over any sequence of commands, each possibly killed.
- **Proxy sessions** (`Jwt`, `ProxyHeaders`, `ProxyServer`, `ProxyRuns`, `ProxyRevocation`, `ProxyLogins`). The server
  is a class over its two maps; `ProxyRuns` interleaves requests, logouts, callbacks and the cleanup loop between their
  lock sections and clock readings.
- **Managed processes** (`ProcessManager`, `ProcessRuns`).
- **Dispatch, redaction, argument splitting** (`Text`, `Hosts`, `ServeGroup`, `Redaction`, `NodeArgv`).

Beside the methods and the runs, lemmas named `...Exactly` say of each decision and of each value written when it is
made and what it is, in the system's own words and units and without the functions that the methods are tied to.

`GoTime` has instants and durations in nanoseconds, with the 64-bit wrap-around of a Go duration product, and
`Wrappers` the two result types. `dafny verify dfyconfig.toml` checks the whole project.

## Where the code does not do what one might expect

Each of these is kept as the code has it, with a lemma that names an input.

- The cooldown of `markRefreshFailure` multiplies a duration by six and can wrap.
  `CertProvider.FailureKeepsSpacingExactly` gives the exact condition, `CertProvider.HugeHintBreaksSpacing` an input.
- Two fetches can start at the same instant, exactly when a handshake passed `shouldRefresh` before the first
  began and has not yet reached `startRefresh` (`CertRuns.SecondFetchExactly`); `CertRuns.RefreshRateBound` says how
  many more there can be, `CertRuns.BoundAttained` that there can be so many.
- After a crash between the rename of a promotion and its write, the draft is no longer found by its own id
  (`StoreRecovery.RenameHidesDraft`); loading the only ward still finds it.
- A logout can be undone in two ways: verify and revocation check read the clock separately
  (`ProxyRevocation.LateCheckPasses`), and a second token of the session may expire later than the one that was
  logged out (`ProxyRevocation.SecondExpiryPasses`). `ProxyRevocation.PassesExactly` is the rule for both.
- `normalizeHost` is not idempotent (`Hosts.NormaliseTwiceDiffers`; exactly when, in `Hosts.IdempotentExactly`), and
  two domains that `validateSharedServeRuntimes` tells apart can be one key for `NewMultiServer`
  (`ServeGroup.PortsCollide`; exactly when, in `ServeGroup.AcceptedExactly`).
- The secret of a challenge is on disk before it is sent in every run of `new` (`NewCommand.EveryChallengeOnDisk`),
  but only because the command saves first; when the submission sees to it by itself is
  `NewService.FirstSecretOnDiskExactly`.
- Quoting and splitting loses empty arguments (`NodeArgv.QuoteRoundTripExactly`).
- The comment above `handleLogout` says POST; the route is registered for GET. The model has no HTTP verbs.

## Model

| member | source | states |
|---|---|---|
| `CertProvider.FailureKeepsSpacingExactly` | internal/adapters/tls/platform_provider.go:204-217 | A failed refresh keeps the five-minute floor if and only if the cooldown is not reached or the wrapped product falls in one of three windows |
| `CertProvider.HugeHintBreaksSpacing` | internal/adapters/tls/platform_provider.go:212-215 | A hint of sixty years makes the fifth failure allow a refresh in the past |
| `CertProvider.PublishedKeepsSpacing` | internal/adapters/tls/platform_provider.go:170-217 | Without overflow every outcome of a refresh postpones the next by five minutes, and by thirty from the fifth consecutive failure on |
| `CertProvider.DueExactly` | internal/adapters/tls/platform_provider.go:114-131 | An idle provider past its allowed time asks if and only if it has no valid certificate, no success, a success at least 24 hours old, or a known expiry at most 14 days off |
| `CertProvider.ServedExactly` | internal/adapters/tls/platform_provider.go:137-144 | The platform certificate is served if and only if there is one that has not expired; else the fallback |
| `CertProvider.HintExactly` | internal/adapters/tls/platform_provider.go:219-234 | A hint in range counts as itself from five minutes on, as five minutes below, and as an hour when absent |
| `CertProvider.OutcomesExactly` | internal/adapters/tls/platform_provider.go:170-217 | A success replaces certificate, expiry and version and starts afresh; a failure keeps them and waits its hint, six times that from the fifth on |
| `CertProvider.InitialExactly` | internal/adapters/tls/platform_provider.go:49-86 | Without a certificate the provider asks at once and serves the fallback; with one it waits for the normalised hint |
| `CertProvider.PlatformCertProvider.constructor` | internal/adapters/tls/platform_provider.go:49-86 | The initial state: with no certificate a refresh is due at once, otherwise after the normalised hint |
| `CertProvider.PlatformCertProvider.CheckDue` | internal/adapters/tls/platform_provider.go:114-131 | Decides `shouldRefresh` on all fields: in flight, not yet allowed, fallback, 24 hours since success, 14 days before expiry |
| `CertProvider.PlatformCertProvider.Current` | internal/adapters/tls/platform_provider.go:137-144 | Serves the platform certificate only before its expiry, else the fallback |
| `CertProvider.PlatformCertProvider.StartRefresh` | internal/adapters/tls/platform_provider.go:146-168 | Starts one refresh if none is in flight and changes nothing else |
| `CertProvider.PlatformCertProvider.Refresh` | internal/adapters/tls/platform_provider.go:170-202 | Replaces certificate, expiry and version together, or counts a failure, as the outcome says |
| `CertProvider.PlatformCertProvider.MarkRefreshFailure` | internal/adapters/tls/platform_provider.go:204-217 | One more failure, and the next refresh after the normalised hint or six times it, wrapped |
| `CertRuns.SingleFlightNoTornCertificate` | internal/adapters/tls/platform_provider.go:76-202 | Every interleaving: the in-flight flag is up exactly while one goroutine lives, the certificate triple comes from one delivery, and no handshake is served a platform certificate whose held expiry has passed |
| `CertRuns.RefreshRateBound` | internal/adapters/tls/platform_provider.go:88-168 | Every interleaving: fetches in a window below five minutes number at most one plus the handshakes between check and start when it opens |
| `CertRuns.ConsecutiveFetchesApart` | internal/adapters/tls/platform_provider.go:114-217 | With nobody between check and start, the next fetch is at least five minutes later, and thirty after five failures in a row |
| `CertRuns.BoundAttained` | internal/adapters/tls/platform_provider.go:88-168 | The bound is attained from every reachable fetch: all handshakes that wait fetch in turn at the same instant |
| `CertRuns.SecondFetchExactly` | internal/adapters/tls/platform_provider.go:88-168 | From a fetch in any reachable state another within five minutes is possible if and only if some handshake stands between check and start |
| `CertRuns.OvertakenHandshakesFetchAgain` | internal/adapters/tls/platform_provider.go:88-168 | A provider without a certificate can be made to fetch any number of times at one instant |
| `CertFreshness.BoundedFreshness` | internal/adapters/tls/platform_provider.go:114-202 | From any success of any run, after any failures and with or without an initial certificate: while fetches succeed in time, the next success is never further away than max(24 h, hint) plus the gap between handshakes and the delays |
| `CertFreshness.FreshFromStart` | internal/adapters/tls/platform_provider.go:49-86 | The same from the start of a provider that has a certificate |
| `CertFreshness.RenewedInTime` | internal/adapters/tls/platform_provider.go:114-202 | From any success: no certificate is held longer than the delays after it enters its last 14 days or its hint is over, whichever is later; one delivered with more life left than that never gives way to the fallback |
| `Records.NormaliseIdempotent` | internal/adapters/storage/json_store.go:241-308 | Normalising a record on reading changes nothing about one normalised on writing |
| `Records.NormaliseExactly` | internal/adapters/storage/json_store.go:241-308 | The defaults of modes, ports and TLS, and that nothing else changes |
| `Records.RecordFields` | internal/application/mapping/runtime_record.go:11-69 | Each value of a runtime stands under its own name in the record; zero times are absent |
| `Records.RuntimeRoundTrip` | internal/application/mapping/runtime_record.go:11-125 | A runtime mapped to a record and back is the same runtime |
| `Records.RecordRoundTripExactly` | internal/application/mapping/runtime_record.go:11-125 | A record survives the other trip if and only if it is current, has no deprecated address and no zero time |
| `RuntimeObject.LocalWardRuntime.ApplyClaimAndWardResponse` | internal/application/mapping/claim_response.go:13-104 | The whole runtime after a claim; untouched without credentials, half-way on an unknown domain type |
| `RuntimeObject.LocalWardRuntime.ApplyGetWardResponseToStatus` | internal/application/mapping/ward_response.go:20-106 | The whole runtime after a ward read: empty answers keep local values, ids and secrets never change |
| `RuntimeObject.LocalWardRuntime.ApplyHeartbeatResponse` | internal/application/mapping/heartbeat_response.go:11-54 | The whole runtime after a heartbeat, the interval to wait, and whether the status lets serving go on |
| `RuntimeObject.LocalWardRuntime.ApplyCreateDraftResponse` | internal/application/mapping/draft_response.go:36-67 | A draft id already held is kept; status is reset only when it was not |
| `RuntimeObject.LocalWardRuntime.ClearDraftState` | internal/application/new_service.go:415-419 | Forgets draft id, draft secret and activation link together |
| `RuntimeObject.LocalWardRuntime.ClearPlatformDraftState` | internal/cmd/new.go:1173-1188 | Forgets the platform's answers but keeps the draft secret; more of them when there is no ward |
| `Records.PlatformDraftClearedExactly` | internal/cmd/new.go:1173-1188 | Exactly which of the platform's answers are forgotten and which values stay, with and without a ward |
| `Store.JSONStore.LoadWardRuntime` | internal/adapters/storage/json_store.go:37-63 | The cursor's record, or the only scanned one; errors on several; where the cursor ends |
| `Store.JSONStore.SaveWardRuntime` | internal/adapters/storage/json_store.go:65-90 | Which directory is renamed and written, where the cursor ends, and each error with nothing changed |
| `Store.JSONStore.TargetDirContainsSameRuntime` | internal/adapters/storage/json_store.go:92-107 | Whether an existing target holds the same ward, the same draft, or neither id |
| `Store.JSONStore.ListWardRuntimes` | internal/adapters/storage/json_store.go:109-130 | The pending record first, then the records of the scanned directories in the order of their names, or the first error on the way |
| `Store.LoadAllExactly` | internal/adapters/storage/json_store.go:120-129 | The listing succeeds if and only if every scanned directory can be read, and then has each one's record in its place |
| `StoreRules.LoadExactly` | internal/adapters/storage/json_store.go:241-275 | When a directory is empty, unreadable or a record, and that a record is read normalised |
| `StoreRules.LoadWardExactly` | internal/adapters/storage/json_store.go:37-63 | A process that works nowhere finds nothing, the only listed ward, or an error on several, and where its cursor ends |
| `StoreRules.LoadByIdExactly` | internal/adapters/storage/json_store.go:132-150 | The pending record by either of its ids first, then the directory of that name |
| `StoreRules.SameRuntimeExactly` | internal/adapters/storage/json_store.go:92-107 | A target is this runtime's own if and only if it holds a readable record of the same ward, the same draft, or neither |
| `Store.JSONStore.LoadRuntimeByID` | internal/adapters/storage/json_store.go:132-150 | The pending record if it carries the id, else the directory of that name; the cursor follows |
| `Store.JSONStore.SavePendingRuntime` | internal/adapters/storage/json_store.go:160-164 | Writes the pending slot without ward credentials |
| `Store.JSONStore.CommitPendingRuntime` | internal/adapters/storage/json_store.go:166-191 | Moves the pending slot to its id, refusing an existing target |
| `Store.JSONStore.ScanWardDirs` | internal/adapters/storage/json_store.go:214-239 | Exactly the directories with a record file, the pending slot apart, in the order of their names |
| `Names.SortNames` | internal/adapters/storage/json_store.go:237-238 | Sorts distinct names into the one sorted listing of their set |
| `Names.SortedUnique` | internal/adapters/storage/json_store.go:237-238 | A set of names has only one sorted listing |
| `Names.BelowExactly` | internal/adapters/storage/json_store.go:237-238 | The order of names: at the first difference the lower character, or the end, comes first |
| `Store.JSONStore.SaveToDir` | internal/adapters/storage/json_store.go:277-308 | The directory then holds the normalised record and no temporary file |
| `StoreRules.SaveRefusesExactly` | internal/adapters/storage/json_store.go:65-107 | A save is refused, with nothing changed, if and only if it comes from elsewhere and its home holds another's record or there is nothing to move |
| `StoreRules.SavePutsExactly` | internal/adapters/storage/json_store.go:65-90 | A save that succeeds puts the record in its home, empties the place it moved from, and touches no other directory |
| `StoreRules.SaveOverwritesOwnOnly` | internal/adapters/storage/json_store.go:65-107 | After any completed operations a save overwrites no record of another id |
| `StoreRules.SavePendingExactly` | internal/adapters/storage/json_store.go:160-164 | The pending slot takes any record without its ward credentials; nothing else changes |
| `StoreRules.CommitMovesExactly` | internal/adapters/storage/json_store.go:166-191 | A commit fails if and only if its name is taken; else the pending slot is gone and its record stands under the name |
| `StoreSteps.StepsRefineSave` | internal/adapters/storage/json_store.go:65-107 | Run alone to its end, the steps of a save are the whole save, errors included |
| `StoreSteps.StopTouchesOnlyTwo` | internal/adapters/storage/json_store.go:65-90 | A save stopped anywhere leaves every directory but source and target as it was |
| `StoreSteps.StopLeavesCompleteRecord` | internal/adapters/storage/json_store.go:277-308 | A target that existed holds, at every stop, its complete old or its complete new record |
| `StoreSteps.StopDuringPromotion` | internal/adapters/storage/json_store.go:65-90 | A promotion stopped anywhere leaves exactly one of source and target, with the complete old or new record |
| `StoreNaming.NamingInvariant` | internal/adapters/storage/json_store.go:65-212 | After any completed operations from an empty store, a directory outside the pending slot is named after its record's id |
| `StoreNaming.ListedIdsDistinct` | internal/adapters/storage/json_store.go:109-130 | No two scanned directories list one id |
| `StoreNaming.ListedIdFoundExactly` | internal/adapters/storage/json_store.go:109-150 | A listed id is found again as the same record if and only if the pending record does not carry it |
| `StoreSharing.LoopsDoNotInterfere` | internal/cmd/serve.go:514-591 | Any interleaving of the single steps of all wards' saves on one cursor: no directory is moved or written for another ward, no save fails, each ends with its own last save |
| `StoreSharing.SaveSparesOthersExactly` | internal/adapters/storage/json_store.go:65-90 | A ward's save spares all other directories if and only if its own exists or the cursor names no other existing one |
| `StoreRecovery.RetryReachesFinalStore` | internal/application/draft_activation_service.go:30-106 | After any number of failed or killed activations, one that is left alone ends in the undisturbed final store, times apart |
| `StoreRecovery.FinalUpToTime` | internal/application/mapping/claim_response.go:13-104 | Final stores reached at different times differ only in the record's timestamp |
| `StoreRecovery.AttemptRecoverable` | internal/application/draft_activation_service.go:30-106 | An activation that fails or dies anywhere leaves the draft under one of the two names, or the finished ward |
| `StoreRecovery.DraftIdFindsOldNameOnly` | internal/adapters/storage/json_store.go:132-150 | The draft's id finds it if and only if its directory still has the old name |
| `StoreRecovery.RenameHidesDraft` | internal/adapters/storage/json_store.go:77-90 | Stopped right after its rename, a promotion hides the draft from its id and not from the load of the only ward |
| `PendingConfig.MergePendingRuntime` | internal/cmd/new.go:1017-1171 | The merged setup, or the first error, field by field in the order of the flags |
| `PendingConfig.MergeSucceedsExactly` | internal/cmd/new.go:176-199 | A merge succeeds if and only if its flags are well formed and the setup can run in the mode asked for: a valid port standalone; behind a proxy a valid public port, a domain of one's own, and a loopback host or CIDRs |
| `PendingConfig.MergeErrorsHold` | internal/cmd/new.go:1017-1150 | Each refusal names something that is wrong |
| `PendingConfig.MergeHonoursFlags` | internal/cmd/new.go:1056-1150 | The value of every flag given is in the result |
| `PendingConfig.MergeKeepsStored` | internal/cmd/new.go:1022-1055 | Every value whose flag is not given stays as stored, the secrets and ids among them |
| `PendingConfig.MergeDefaults` | internal/cmd/new.go:1029-1055 | What is neither given nor stored has its default |
| `PendingConfig.MergeGivesNormalForm` | internal/cmd/new.go:1101-1150 | Every successful merge is standalone with equal ports, TLS and no CIDRs, or behind a proxy without TLS and with loopback or CIDRs |
| `PendingConfig.MergeIdempotent` | internal/cmd/new.go:1017-1171 | Merging the same flags again, with any fresh secrets, changes only the timestamp |
| `Lifecycle.LifecycleInvariant` | internal/adapters/storage/json_store.go:160-191 | Journals with crashes anywhere in a store operation: a stored draft's challenge is registered, ward id and secret come together, a ward's secrets never change |
| `Lifecycle.InvStep` | internal/application/mapping/claim_response.go:25-31 | Each journal entry, complete or stopped, keeps disk and registry consistent and the registry growing |
| `Lifecycle.StepsRefineCommit` | internal/adapters/storage/json_store.go:166-191 | The steps of a commit, not stopped, are the whole commit |
| `Lifecycle.StepsRefineSavePending` | internal/adapters/storage/json_store.go:160-164 | The steps of a pending save, not stopped, are the whole save |
| `NewService.Execute` | internal/application/new_service.go:65-293 | Refuses an invalid input or an unreadable pending slot without effect; else exactly the specified journal of secrets, calls and saves, and the store it leaves |
| `NewService.ValidateInput` | internal/application/new_service.go:73-116 | The defaulted input, or the first fault in the order of the checks |
| `NewService.Validated` | internal/application/new_service.go:73-116 | An accepted input has positive ports, TLS exactly unless behind a proxy, and behind a proxy a custom domain and the pro spec |
| `NewService.ValidatedExactly` | internal/application/new_service.go:377-413 | A submission is accepted if and only if billing is monthly or yearly, a proxied ward has a custom domain, and it is starter with a subdomain or pro with a full requested domain |
| `NewService.ValidatedContents` | internal/application/new_service.go:73-116 | What an accepted submission becomes: what is given is kept, what is not has its default |
| `NewService.FaultsHold` | internal/application/new_service.go:377-413 | Each refusal names something that is wrong |
| `NewService.OpenedExactly` | internal/application/new_service.go:117-136 | A submission starts from the pending record as it is, or from an empty setup with the site and ingress submitted |
| `NewService.ForgottenExactly` | internal/application/new_service.go:137-164 | A pending draft is forgotten, and saved so, if and only if the platform calls it stale, expired or failed |
| `NewService.SubmissionCreates` | internal/application/new_service.go:165-247 | Unless a draft's status cannot be had, at least one create is sent; the call succeeds if and only if the first is accepted, or is refused as stale and the second accepted |
| `NewService.RetryExactly` | internal/application/new_service.go:221-235 | What is saved before the second create: the same setup under a fresh secret, without the stale draft |
| `NewService.SubmissionStores` | internal/application/new_service.go:248-281 | A submission that succeeds leaves the accepted reply in the pending slot; a draft the platform still knows keeps its id |
| `NewService.ExecuteSound` | internal/application/new_service.go:137-293 | Whatever the platform answers, each entry of that journal is one the client is entitled to |
| `NewService.ExecuteKeepsChallenge` | internal/application/new_service.go:137-293 | After any part of the call, a pending draft's challenge is the one the platform holds |
| `NewService.AtMostTwoCreates` | internal/application/new_service.go:211-247 | At most two create requests per call |
| `NewService.RetrySecretIsOnDisk` | internal/application/new_service.go:221-247 | When a second challenge is sent, the record on disk holds its secret |
| `NewCommand.RunNew` | internal/cmd/new.go:411-645 | Setup and commit produce the specified journal and success flag through every exit: display, missing site, merge, domain, prechecks, listener and probe, submission, and the move of a setup that was pending |
| `NewCommand.ShowsExactly` | internal/cmd/new.go:423-469 | A run only displays if and only if it is asked to, or neither commits nor has a flag |
| `NewCommand.SetupSavesExactly` | internal/cmd/new.go:471-535 | Without a commit the merged setup is saved, and nothing sent, if and only if site, merge, domain and prechecks allow it |
| `NewCommand.ProceedsExactly` | internal/cmd/new.go:548-596 | What a commit needs between its first save and the submission |
| `NewCommand.SubmitsItsOwn` | internal/cmd/new.go:596-614 | A setup is submitted value by value as it was saved |
| `NewCommand.CommitStaysPending` | internal/cmd/new.go:596-645 | A commit in one step leaves the accepted draft in the pending slot |
| `NewCommand.CommitMovesPending` | internal/cmd/new.go:626-645 | A commit of a setup that had been pending moves it to a directory named after its draft |
| `NewCommand.NewCommandSound` | internal/cmd/new.go:414-645 | That journal is sound from every consistent store |
| `NewCommand.EveryChallengeOnDisk` | internal/cmd/new.go:540-645 | In the whole command, whenever a challenge is sent, the pending record on disk holds its secret |
| `NewService.FirstSecretOnDiskExactly` | internal/application/new_service.go:137-211 | By itself a submission sends its first challenge with the secret on disk if and only if the pending record has one and the platform does not void its draft |
| `Activation.FinalizeIfConverted` | internal/application/draft_activation_service.go:19-82 | The journal and result for each status answer: forget, claim and save, or nothing |
| `Activation.ClaimDraft` | internal/application/draft_activation_service.go:66-106 | Claims with the draft secret, reads the ward with the new one, saves both answers in one record |
| `Activation.FinalizeSound` | internal/application/draft_activation_service.go:30-106 | The claim sends the preimage the platform has registered, and what is saved has the granted credentials |
| `AnswersSaved.ConvertsExactly` | internal/application/draft_activation_service.go:30-106 | An activation succeeds if and only if a waiting draft, a ready platform, full credentials, a known domain type and a save come together |
| `AnswersSaved.ConversionSaves` | internal/application/mapping/claim_response.go:13-104 | It then has on disk, under the ward's name and field by field, what the platform answered, and what was stored where it answered nothing |
| `AnswersSaved.UnconvertedSaves` | internal/application/draft_activation_service.go:40-63 | A void draft is forgotten on disk; any other that is not ready is left as it was |
| `Activation.RunStatus` | internal/application/status_service.go:72-171 | The status command's journal and report, with its errors |
| `AnswersSaved.StatusRefreshes` | internal/application/mapping/ward_response.go:20-106 | After a status command a stored ward has on disk, field by field, the platform's answer over what was stored, or is untouched without one |
| `AnswersSaved.StatusPolls` | internal/application/status_service.go:118-140 | A waiting draft that is not ready has the polled status and times on disk and is otherwise as stored |
| `AnswersSaved.StatusClaims` | internal/application/status_service.go:96-160 | A draft found ready is claimed on disk, and the new ward refreshed over that if it can be read |
| `AnswersSaved.ReportExactly` | internal/application/status_service.go:72-171 | What the command reports as claimed, refreshed and failed |
| `AnswersSaved.ReportedIsStored` | internal/application/status_service.go:142-171 | The runtime reported is the one on disk |
| `Activation.StatusRunSound` | internal/application/status_service.go:72-171 | That journal is sound from every consistent store |
| `Activation.VerifyActive` | internal/cmd/serve.go:442-489 | Serving starts only for an active, saved ward; local upstream, ingress and domain are kept |
| `Activation.VerifyingExactly` | internal/cmd/serve.go:442-489 | The check saves something if and only if the ward has an id and the platform calls it active, expired, suspended or deleted |
| `AnswersSaved.CheckSaves` | internal/cmd/serve.go:442-489 | The check before serving saves the status and, for an active ward, the platform's terms, but keeps local upstream, ingress and domain |
| `Activation.RunHeartbeat` | internal/cmd/serve.go:553-591 | What a heartbeat changes and saves, when to beat next, and when serving ends |
| `AnswersSaved.BeatSaves` | internal/application/mapping/heartbeat_response.go:23-54 | A heartbeat leaves its answer on disk, and what was there where it says nothing |
| `Activation.ServesExactly` | internal/application/mapping/heartbeat_response.go:43-53 | Serving goes on if and only if the ward is active or says nothing |
| `Activation.HeartbeatSpacing` | internal/cmd/serve.go:541-546 | Whatever the hint, also one that wraps, heartbeats are half a minute apart, and a hint is followed to the second if and only if it is in range |
| `Commands.EveryRecordConsistent` | internal/cmd/new.go:1152-1188 | From an empty store, after any commands killed anywhere, every complete record agrees with the platform on challenge, credentials and JWT secret |
| `Commands.CredentialsLast` | internal/application/mapping/ward_response.go:20-106 | Once a ward is on disk, every later record of it has the same two secrets and no draft secret |
| `Jwt.SignedTokenLifetime` | internal/adapters/jwt/jwt.go:36-132 | A session token is accepted exactly from its second of issue until eight hours later, with the claims it was signed for |
| `Jwt.SignVerifiedAgain` | internal/adapters/jwt/jwt.go:36-132 | Signing verified claims gives the same token again |
| `Jwt.VerifyExactly` | internal/adapters/jwt/jwt.go:88-132 | A token is accepted if and only if it is genuine, of this issuer and version, names principal, ward and session, and the reading is in [nbf, exp) |
| `ProxyServer.Server.HandleDefault` | internal/adapters/proxy/server.go:185-341 | Forbids, forwards a whitelisted, agent or session request with the headers the upstream sees, refuses an agent token, or shows a login page and remembers it; in each case the whole session state |
| `ProxyServer.WhitelistedExactly` | internal/adapters/proxy/server.go:611-625 | A path needs no login if and only if some rule is exact and names it, or is a prefix that it starts with |
| `ProxyServer.CookieExactly` | internal/adapters/proxy/server.go:213-247 | A cookie is good if and only if its token verifies and is of this ward and for it |
| `ProxyHeaders.BearerFound` | internal/adapters/proxy/server.go:400-406 | A bearer token is found whatever the spaces around it |
| `ProxyHeaders.BearerMissing` | internal/adapters/proxy/server.go:400-406 | Without the header, or with another scheme, there is none |
| `ProxyHeaders.CleanInjectedIdentityHeaders` | internal/adapters/proxy/server.go:343-353 | Deletes exactly the headers whose canonical name is an identity name |
| `ProxyHeaders.ApplyTrustedProxyHeaders` | internal/adapters/proxy/server.go:355-398 | Which forwarded headers are dropped and what the remote address becomes, by ingress mode and trust |
| `ProxyHeaders.ForwardingExactly` | internal/adapters/proxy/server.go:355-372 | Which forwarding headers are dropped and when the remote address changes, and to what |
| `ProxyHeaders.FirstForwardedFound` | internal/adapters/proxy/server.go:392-398 | Of a list of forwarded addresses the first counts |
| `ProxyHeaders.NobodyForwarded` | internal/adapters/proxy/server.go:392-398 | A list that starts with a comma names nobody |
| `ProxyHeaders.IdentityExactly` | internal/adapters/proxy/server.go:343-353 | A well-formed name is an identity if and only if, in whatever case, it is one of three or starts as the proxy's own |
| `ProxyHeaders.NobodyIsSpoofed` | internal/adapters/proxy/server.go:270-277 | A session request reaches the upstream with the identity of its claims and no identity header of the client, in whatever case it was sent |
| `ProxyHeaders.NoAgentIsSpoofed` | internal/adapters/proxy/server.go:326-341 | The same for an agent, whose token is not passed on |
| `ProxyHeaders.CredentialIsTheTokens` | internal/adapters/proxy/server.go:336-338 | A credential name the upstream sees is the token's own; a token without one names none |
| `ProxyHeaders.NobodyIsNamed` | internal/adapters/proxy/server.go:192-199 | A whitelisted request carries no identity at all |
| `ProxyServer.Server.HandleCallback` | internal/adapters/proxy/server.go:487-554 | Takes the transaction whatever comes of it, and redirects only a fresh one of this ward |
| `ProxyServer.Server.HandleLogout` | internal/adapters/proxy/server.go:578-602 | Revokes any token that verifies until its own expiry, else changes nothing |
| `ProxyServer.Server.CleanupExpiredState` | internal/adapters/proxy/server.go:688-705 | Deletes exactly the logins older than ten minutes and the revocations that have run out |
| `ProxyRuns.RequestAlone` | internal/adapters/proxy/server.go:207-278 | Undisturbed, the single steps of a request amount to `HandleDefault` |
| `ProxyRuns.CallbackAlone` | internal/adapters/proxy/server.go:487-554 | Undisturbed, the single steps of a callback amount to `HandleCallback` |
| `ProxyRuns.LogoutAndSweepAlone` | internal/adapters/proxy/server.go:578-705 | Undisturbed, the steps of a logout and of a cleanup amount to their methods |
| `ProxyRuns.CleanupUnobservable` | internal/adapters/proxy/server.go:673-705 | Every interleaving: the server passes, refuses, shows, exchanges and redirects exactly as one that never cleans up |
| `ProxyRevocation.PassesExactly` | internal/adapters/proxy/server.go:249-268 | Every run, whatever its expiries: a verified request passes if and only if no logout of its session came before it looked, or the expiry the latest one recorded has come |
| `ProxyRevocation.RevocationLasts` | internal/adapters/proxy/server.go:213-268 | If the latest logout before it looked recorded no earlier expiry than the token's own, a request passed only if its token expired between verify and check |
| `ProxyRevocation.RevokedNeverPasses` | internal/adapters/proxy/server.go:213-268 | With one clock reading, a pass had no logout before it looked, or one for an earlier expiry than the token's own |
| `ProxyRevocation.OneExpirySuffices` | internal/adapters/proxy/server.go:578-602 | One expiry for all tokens of a session is enough for both |
| `ProxyRevocation.LateCheckPasses` | internal/adapters/proxy/server.go:213-268 | With two readings such a pass does happen |
| `ProxyRevocation.SecondExpiryPasses` | internal/adapters/proxy/server.go:586-588 | With two expiries it happens with one reading |
| `ProxyLogins.ExchangesInject` | internal/adapters/proxy/server.go:427-554 | Every interleaving: exchanges go back to different earlier login pages of this ward, none older than ten minutes |
| `ProxyLogins.RedirectsReturn` | internal/adapters/proxy/server.go:487-554 | A redirect follows the one exchange of its login page and leads where that page came from |
| `ProxyLogins.PassedRequestsLoggedIn` | internal/adapters/proxy/server.go:213-554 | With unforged cookies, a request that passes has its session from a login page shown, exchanged and set before, less than eight hours ago |
| `ProcessManager.ComesUpExactly` | internal/adapters/upstream/process_manager.go:81-97 | The wait succeeds if and only if some poll is ready and none before it ended the wait |
| `ProcessManager.Manager.EnsureRunning` | internal/adapters/upstream/process_manager.go:25-56 | Which processes are started, owned and shut down, and what is returned |
| `ProcessManager.Manager.WaitForUpstreamReady` | internal/adapters/upstream/process_manager.go:81-97 | The loop's verdict is that of the specification |
| `ProcessManager.Manager.Shutdown` | internal/adapters/upstream/process_manager.go:59-69 | The owned process, if any, is handed over once and owned no more |
| `ProcessManager.EnsureConserves` | internal/adapters/upstream/process_manager.go:25-56 | Each call keeps every started process either owned or shut down once |
| `ProcessManager.EnsureExactly` | internal/adapters/upstream/process_manager.go:25-56 | The own process is kept if and only if its probe answers; nothing is started beside an upstream that answers; else at most one is, and owned if and only if it comes up |
| `ProcessManager.ShutExactly` | internal/adapters/upstream/process_manager.go:59-69 | The owned process is handed over and nothing else |
| `ProcessManager.PreparedExactly` | internal/cmd/serve.go:357-440 | Which ward can be prepared, and what the processes are afterwards in either case |
| `ProcessManager.ShutConserves` | internal/adapters/upstream/process_manager.go:59-69 | After a shutdown every process ever started has been shut down |
| `ProcessManager.PrepareServeRuntimes` | internal/cmd/serve.go:340-355 | Manager by manager what start-up owns and shuts down; on failure no manager made on the way owns a process |
| `ProcessManager.PrepareServeRuntime` | internal/cmd/serve.go:357-440 | One ward's preparation: its checks in order, and its own process shut down when TLS fails |
| `ProcessManager.FailedStartLeavesNothing` | internal/cmd/serve.go:340-405 | A failed start-up has shut down, once each, exactly the processes it started |
| `ProcessRuns.ProcessConservation` | internal/adapters/upstream/process_manager.go:25-69 | Every interleaving of calls: a process is owned, awaited by the lock's holder, taken by one shutdown, or shut down once, and only one of these |
| `ProcessRuns.QuietConservation` | internal/adapters/upstream/process_manager.go:25-69 | With no call under way, a process is owned if and only if it was not shut down |
| `ProcessRuns.ReplacementUnreachable` | internal/adapters/upstream/process_manager.go:50-52 | The second shutdown branch is never taken |
| `ProcessRuns.EnsureAlone` | internal/adapters/upstream/process_manager.go:25-56 | Undisturbed, the single steps amount to the whole call |
| `ProcessRuns.ShutdownAlone` | internal/adapters/upstream/process_manager.go:59-69 | Undisturbed, the single steps amount to the whole shutdown |
| `Hosts.SpellingsNormalise` | internal/adapters/proxy/multi_server.go:142-159 | Every case, padding, bracket and port spelling of a name or IPv6 literal has the lower-case host as key |
| `Hosts.SameKeyExactly` | internal/adapters/proxy/multi_server.go:142-159 | Two spellings have one key if and only if they spell one host up to case |
| `Hosts.PlainSplits` | internal/adapters/proxy/multi_server.go:152-154 | A name and a port come apart at the colon |
| `Hosts.BracketedSplits` | internal/adapters/proxy/multi_server.go:152-154 | So do a bracketed host and a port |
| `Hosts.StableExactly` | internal/adapters/proxy/multi_server.go:142-159 | Normalising leaves a string alone if and only if it is lower-case, bare of spaces and brackets at its ends and without a lone colon |
| `Hosts.IdempotentExactly` | internal/adapters/proxy/multi_server.go:142-159 | Normalising twice is normalising once if and only if the branch that the trimmed lower-case input takes leaves a final key |
| `Hosts.NormaliseTwiceDiffers` | internal/adapters/proxy/multi_server.go:142-159 | A bracketed host with one colon changes again when normalised again |
| `Hosts.NewMultiServer` | internal/adapters/proxy/multi_server.go:24-53 | Accepts if and only if there are servers, all keyed, with different keys and one TLS mode; the entries are exactly theirs, and an error is that of the first server that cannot be entered |
| `Hosts.DispatchFinds` | internal/adapters/proxy/multi_server.go:98-110 | Any spelling of a ward's domain reaches that ward, whatever the handshake said |
| `Hosts.DispatchOnlyOwn` | internal/adapters/proxy/multi_server.go:98-110 | Without a handshake name a request reaches only the ward of its host; an unknown host falls back to the handshake's name |
| `ServeGroup.ValidateSharedServeRuntimes` | internal/cmd/serve.go:281-338 | Accepts if and only if the wards can share a listener, with every ingress default written out; otherwise the error of the first ward that cannot |
| `ServeGroup.MemberExactly` | internal/cmd/serve.go:291-307 | Who may share the first ward's listener, in terms of what is stored: address, mode, ports, and a loopback host or CIDRs behind a proxy |
| `ServeGroup.FaultsHold` | internal/cmd/serve.go:281-316 | Each refusal names something that is wrong |
| `ServeGroup.EffectiveExactly` | internal/domain/specs.go:65-122 | The defaults of an ingress written out |
| `ServeGroup.AcceptedExactly` | internal/adapters/proxy/multi_server.go:24-53 | Of wards that pass the validation, the dispatcher accepts a group if and only if all their domains have keys and different ones; its TLS test refuses none |
| `ServeGroup.ShareableAccepted` | internal/cmd/serve.go:281-316 | Such wards with proper hosts as domains are accepted by the dispatcher |
| `ServeGroup.PortsCollide` | internal/cmd/serve.go:308-314 | Two domains differing only in a port pass the validation and are refused by the dispatcher |
| `Redaction.RedactJSON` | internal/adapters/platformapi/client.go:257-278 | The loops compute the redaction of the whole tree |
| `Redaction.RedactionHidesExactly` | internal/adapters/platformapi/client.go:257-287 | Two trees redact alike if and only if they differ only beneath sensitive keys |
| `Redaction.RedactIdempotent` | internal/adapters/platformapi/client.go:257-278 | Redacting again changes nothing |
| `Redaction.SensitiveExactly` | internal/adapters/platformapi/client.go:280-287 | A key is sensitive if and only if, in lower case and trimmed, it is one of twelve names |
| `Redaction.SpellingsAreSensitive` | internal/adapters/platformapi/client.go:280-287 | Every case of these names, with any spaces around it, is sensitive, and no other word is |
| `Redaction.MembersExactly` | internal/adapters/platformapi/client.go:257-278 | A sensitive member becomes the mask, a plain value under any other key stays |
| `Redaction.ClearPathsKept` | internal/adapters/platformapi/client.go:257-278 | A path without sensitive keys leads to the redacted form of what it led to, or nowhere as before |
| `Redaction.HiddenPathsMasked` | internal/adapters/platformapi/client.go:262-265 | A path with a sensitive key leads to the mask or nowhere |
| `NodeArgv.SplitNodeArgv` | internal/adapters/upstream/process_manager_start.go:25-52 | The loop computes the specified tokens and refuses what does not start with `node` |
| `NodeArgv.TokensConserve` | internal/adapters/upstream/process_manager_start.go:25-48 | On every input the tokens, none empty, are together the input without quotes and unquoted spaces |
| `NodeArgv.QuoteRoundTripExactly` | internal/adapters/upstream/process_manager_start.go:25-52 | Quoted arguments come back if and only if none is empty and the first is `node` |
| `NodeArgv.QuotedNodeRunsDirectly` | internal/adapters/upstream/process_manager_start.go:8-22 | A quoted `node` command, however padded, is started with exactly its arguments |
| `NodeArgv.SimpleRoundTrip` | internal/adapters/upstream/process_manager_start.go:25-48 | Words without quotes or spaces come back without quoting |
| `NodeArgv.OthersGoToTheShell` | internal/adapters/upstream/process_manager_start.go:8-22 | A command whose first token is not `node` goes to the shell as it is |

## Left out

- Cryptography and encodings: signatures are ideal, SHA-256 is any injective function, a record written is the record read up to the store's own normalisation; JSON text, PEM and X.509 are outside.
- HTTP, TLS sockets, DNS, exec, signals and the network: outcomes of calls are inputs of the model, and so are the clock and random secrets.
- Failures of single file-system calls other than a missing rename source, an unreadable record and a crash; permissions and path separators in ids.
- The difference between a nil and an empty slice, except where an absent list in a response means keep.
- The address parsers of `new` and its check of a full domain name: arbitrary functions in the model. The rest of the preview, probes and listener is one answer, before or after the first save.
- Rendering, and the commands other than `new`, `status` and `serve`.
- `CertFreshness.BoundedFreshness`: splits the time of a fetch into the delay before its start and the goroutine's life, and needs that life to stay within a day for the bound to read max(24 h, hint).
- `CertRuns.RefreshRateBound`: assumes that no cooldown product overflows, because it is false otherwise; `CertProvider.HugeHintBreaksSpacing` is such a hint.
- The counter of consecutive failures is unbounded; panics in the refresh goroutine are outside.
- `Lifecycle.LifecycleInvariant`: speaks of the registered challenge only for records without a ward, because a claim blanks the draft secret and keeps the draft id.
- `StoreSharing.LoopsDoNotInterfere`: has no crash inside the interleaving, because two saves to one directory never overlap there.
- `Commands.EveryRecordConsistent`: commands run one after another, because the interleaving of saves is the subject of `StoreSharing`; processes may alternate with cursors of their own. The platform's answers after the point of death are taken to be honest as well.
- `ProxyLogins.PassedRequestsLoggedIn`: takes every genuine cookie to be one this run has set, because sessions of an earlier run are outside a run's history.
- `ProxyServer.Server.HandleDefault`: takes the agent verifier's answer as an input, because that verifier's keys and signatures are outside; log lines, starting the managed upstream and the retry of a failed upstream request are outside too.
- `ProxyRuns` has the session branch of a request only: whitelisted and agent requests touch no session state.
- Which of two entries the TLS configuration falls back to in `multiTLSConfig`: it depends on map order.
- `ProcessManager.Manager.WaitForUpstreamReady`: takes one poll per tick, because the ticker, the context and the dial are outside; a list of polls that runs out is a context that ends.
- Case folding and white space beyond ASCII in `Text`: host names, header names and JSON keys are ASCII here.
- `PreRunE` validation of `new`, which derives the public port differently from the merge.
- `ListRuntimes` and `classifyRuntime`, which only relabel what `Store.JSONStore.ListWardRuntimes` returns.
